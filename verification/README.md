# A verified model of QEMU's block layer, jobs, image tools and CPU exclusive sections

This project models five parts of the system in Dafny and proves what they promise. `dafny verify dfyconfig.toml` is the
command that checks the whole of it.

**Exclusive sections** (`Exclusive.dfy`). Any number of CPUs run guest code between `cpu_exec_start` and `cpu_exec_end`;
one of them may ask all others to stop with `start_exclusive`. Every access to `pending_cpus`, to a CPU's `running` and
`has_waiter`, to the mutex and to the two condition variables is one step, and steps of different CPUs interleave
freely. In every run an exclusive section excludes guest code and other exclusive sections, the counter counts exactly
the CPUs still waited for, no wake-up is lost, and there is no deadlock.

**The block graph** (`BlockGraph.dfy`, `Topology.dfy`, `Chains.dfy`, `Permissions.dfy`, `GraphChanges.dfy`,
`Transactions.dfy`, `TransactionRuns.dfy`, `GraphOperations.dfy`, `BlockLayer.dfy`). Nodes and edges with permissions, changed inside
transactions that keep an undo log. Refreshing permissions parents first succeeds exactly if there is an assignment of
permissions that fits, and finds the only one; rolling back any sequence of changes restores the graph; references are
conserved in every state of every run, also while a transaction is open, half rolled back or half committed.
The operations themselves (set permissions, replace a node, attach, append, set the backing link, drop an edge) are
methods of `BlockLayers.BlockLayer`. Between operations its graph is linked up, acyclic and free of conflicts between
users, and whatever is tied together is in one AioContext; each operation either does exactly what it is for or leaves
everything as it was, contexts included.

**AioContexts** (`AioContext.dfy`, `Placement.dfy`). The mutual recursion that moves a node to another context together
with everything tied to it, all of it or nothing; what attaching an edge does about contexts; and why its abort can
always take that back.

**Jobs** (`Jobs.dfy`, `JobInvariant.dfy`, `JobOutcomes.dfy`, `JobRuns.dfy`, `JobExamples.dfy`, `JobWindows.dfy`,
`JobList.dfy`). Jobs in transactions as a state machine, with every status a job goes through and every driver callback kept as history. On
every job that has left its transaction exactly one of commit and abort has been called, and which one is determined by
how the transaction ended. `JobLists.JobList` holds the loops over a transaction's jobs, proved against the functions
that the state machine uses.

**Image tools** (`Alignment.dfy`, `Buffers.dfy`, `Sparse.dfy`, `Compare.dfy`, `Rebase.dfy`, `Convert.dfy`,
`ConvertRun.dfy`, `ConvertEnd.dfy`). Comparing images, safe rebase and conversion. Block status is any answer that is sound for the
contents, and every read, write and query may fail. `Convert.ImgConvert` has what one coroutine of a conversion does,
also with salvage and for a target with a backing file; `ConvertRun` has the coroutines interleaving wherever one of them can yield, with steps that demand exactly what those
methods ensure: a step that writes is one round of the loop of `convert_co_write`, `Convert.ImgConvert.WritePart`.
`ConvertEnd` shows that every interleaving comes to an end.

Where a property turned out not to hold as one would like, the code is modelled as it is, the failure is shown, and the
exact condition is proved:

- Loosening permissions can fail after all: `Permissions.UnalignedLooseningFails`. `Permissions.LooseningRefresh`: it
  never fails if the sizes of the images below are aligned, and in general it fails if and only if an image whose size
  is not aligned is left with writers none of which may resize it.
- A transaction of jobs can be torn apart: `JobExamples.TornTransaction` is a run in which one job is committed and the
  other aborted. `JobRuns.FailedPrepare` says exactly when: if and only if the first job in the transaction's list whose
  prepare callback fails is not the job that asked to finalize.
- The assertion that a completing job has not completed yet can fail: `JobExamples.CancelTwice`. `JobRuns.AssertsHold`
  says exactly when: if and only if a job that was never started, and is ABORTING, is cancelled again. The user's cancel
  command is refused for such a job.
- An I/O error while `job_user_resume_locked` or `job_cancel_async_locked` has given up the lock to call `user_resume`
  leaves a failed iostatus on a job that is not paused by the user, so that the next reset fails its assertion:
  `JobWindows.ErrorInWindow`. `JobWindows.ResumeWindow` and `JobWindows.CancelWindow`: the job is left in order if and
  only if the coroutine reports no error in that window; the window around the cancel callback does no harm.
- The rebase loop need not end: `Rebase.LargeUnitsStall` stands still after any number of iterations.
  `Rebase.AdvancesEverywhere`: the loop moves on from every offset if and only if allocation units fit the buffer or the
  whole image does; under that condition `Rebase.SafeRebase` ends, and for all other units and sizes there are images on
  which the loop does not.
- The comment on `is_allocated_sectors` says that it tells whether the first sector has data. `Sparse.ShortRunIsData` is
  an input for which the first sector is zero and the answer is yes. `Sparse.IsAllocatedSectors` says exactly when: for a
  run of zeroes that is followed by data and too short to reach an aligned sector.

## Model

| member | source | states |
|---|---|---|
| Exclusive.StepKeepsInv | cpu-common.c:181-322 | every atomic step of every CPU in the four functions keeps the protocol's invariant |
| Exclusive.RunKeepsInv | cpu-common.c:181-322 | the invariant holds in every state of every run, for any number of CPUs |
| Exclusive.MutualExclusion | cpu-common.c:192-322 | while a CPU is in an exclusive section no CPU is in guest code and no other CPU is in an exclusive section |
| Exclusive.PendingCountsWaiters | cpu-common.c:205-233 | in every run, past the counting, `pending_cpus` is one plus the number of CPUs with `has_waiter` set, plus one between the two writes of a hand-over |
| Exclusive.OwedAreWaiters | cpu-common.c:290-322 | the CPUs whose decrement is still to come are the ones with `has_waiter` set and the one in the middle of its hand-over |
| Exclusive.OutsideIsClean | cpu-common.c:290-322 | on return from `cpu_exec_end`, and while parked in `exclusive_idle`, `running` and `has_waiter` are clear; the section count is positive exactly inside a section |
| Exclusive.NoLostWakeup | cpu-common.c:219-247 | a thread asleep on a condition variable still has something to wait for, or the signal is about to be sent |
| Exclusive.NoDeadlock | cpu-common.c:181-322 | while some CPU is inside one of the functions, executes or holds a section, some CPU can take a step that carries on, without a new call and without a spurious wake-up |
| Exclusive.SleeperWaitsFor | cpu-common.c:181-233 | with the mutex free, a sleeper waits for a CPU whose decrement or whose end of section is to come, and that CPU is awake or waits in turn for one that is |
| Exclusive.StartIsQuiet | cpu-common.c:192-233 | what a step of `start_exclusive` other than counting, marking and setting the counter can do |
| Exclusive.ExecStartIsQuiet | cpu-common.c:250-287 | what a step of `cpu_exec_start` can do to shared state |
| Exclusive.ExecEndIsQuiet | cpu-common.c:290-322 | what a step of `cpu_exec_end` other than the hand-over can do |
| Exclusive.CallIsQuiet | accel/tcg/cpu-exec.c:533-575 | starting one of the functions, also from inside an exclusive section with `running` set by hand, keeps to the protocol |
| Topology.TopologicalDfs | block.c:2300-2323 | with a shared `found` set, the list stays free of duplicates, parents come before children, and exactly the nodes reachable from the start are added |
| Topology.SortFrom | block.c:2620-2632 | the list made from several starts is sorted and holds exactly the nodes reachable from them |
| Topology.RecurseHasChild | block.c:4328-4344 | answers exactly whether one node is reachable from another |
| Topology.ShouldUpdateChild | block.c:5229-5306 | the breadth-first search answers exactly whether the edge may move: it is not bound to its node and not held below the new one |
| Topology.NewEdgeKeepsAcyclic | block.c:3207-3210 | an edge to a node that does not reach its holder closes no cycle |
| Topology.AcyclicIsRanked | block.c:2300-2323 | an acyclic graph can be ranked so that every edge goes down |
| Permissions.GetCumulativePerm | block.c:2634-2650 | computes what the users of a node need together and what all of them share |
| Permissions.ParentPermsConflict | block.c:2245-2269 | finds a conflict exactly if some user needs what another user of the node does not share |
| Permissions.PropagateFrame | block.c:2509-2580 | refreshing changes permissions only, and only on child edges of listed nodes whose drivers derive them |
| Permissions.PropagateIsFixpoint | block.c:2588-2610 | one pass over a sorted list leaves every child edge with exactly what follows from the final permissions on its node |
| Permissions.RefreshDecides | block.c:2509-2610 | the refresh succeeds exactly if every listed node accepts its users in the final graph: later nodes never spoil earlier checks |
| Permissions.FixpointIsUnique | block.c:2588-2610 | whatever assignment satisfies the equations at the listed nodes is the one the refresh computes |
| Permissions.DefaultPermsMonotone | block.c:2761-2909 | the default permission functions ask for no more and share no less when the users above do |
| Permissions.DefaultDriversMonotone | block.c:2888-2909 | so drivers that use them, and accept any permissions, are monotone in the sense the loosening results ask for |
| Permissions.DefaultPermsProtect | block.c:2761-2909 | metadata children are not shared for writing, and backing children are not written |
| Permissions.LooserPropagate | block.c:2708-2740 | after loosening, permissions are pointwise looser on every edge below |
| Permissions.LooseningRefresh | block.c:3322-3328 | loosening raises no conflict, no read-only error and no refusal; the refresh succeeds if all sizes are aligned, and in general if and only if the size check passes everywhere |
| Permissions.UnalignedLooseningFails | block.c:2540-2549 | a graph where taking away a user makes the refresh fail |
| GraphChanges.RepointKeepsLinked | block.c:2934-2995 | moving an edge keeps lists and `file` and `backing` links in agreement with the edges |
| GraphChanges.RepointBack | block.c:1441-1499 | moving the edge back undoes the move, lists and links included |
| Transactions.ChangeUndone | block.c:2331-2339 | the log entries of each kind of change undo it, references included |
| Transactions.ChangeUndoneTo | block.c:2331-2339 | undoing only the last log entries of a change leaves every reference accounted for as well |
| Transactions.AbortRestores | util/transactions.c:60-79 | aborting any sequence of changes restores every edge, list and link, deletes no node, and restores all counts once scheduled unrefs have run |
| Transactions.ChangeKeepsConserved | block.c:2479-2500 | every change inside a transaction keeps each count equal to users, edges, log entries and scheduled unrefs |
| Transactions.CommitConserves | block.c:2424-2430 | so does committing |
| Transactions.RollbackConserves | util/transactions.c:60-79 | so does every single step of a rollback of any sequence of changes |
| Transactions.DeletedIsUnnamed | block.c:7171-7213 | no edge, log entry, user or scheduled unref names a deleted node |
| TransactionRuns.ActKeepsInv | block.c:3314-3339 | opening a transaction, each change, each entry undone or committed, scheduled unrefs, references of users and dropped edges conserve references |
| TransactionRuns.RunConserves | block.c:7171-7213 | in every state of every run, with transactions open or half finished, each count is made up of users, edges, log entries and scheduled unrefs, and nothing names a deleted node |
| TransactionRuns.RunRestores | util/transactions.c:60-79 | in every run, a transaction that has been rolled back leaves what was there when it was opened |
| GraphOperations.RedirectKeepsAcyclic | block.c:5347-5379 | moving an edge that is not below its new target keeps the graph acyclic and what is below the target as it is |
| GraphOperations.AttachKeepsAcyclic | block.c:3192-3224 | a new edge whose target does not reach its holder keeps the graph acyclic |
| GraphOperations.RefreshMeets | block.c:2588-2610 | in any sorted order, the refresh succeeds exactly if some assignment of permissions fits, and then it has found it |
| GraphOperations.RefreshKeepsPeace | block.c:2588-2632 | a refresh that covers all nodes with new users leaves no conflicting users anywhere in the graph |
| GraphOperations.LooseningSatisfies | block.c:2708-2740 | for a graph in order with aligned images, looser permissions can always be had |
| GraphOperations.LooserPermsSatisfy | block.c:2708-2740 | so setting looser permissions on an edge never fails |
| GraphOperations.RemovalSatisfies | block.c:3314-3339 | nor does the refresh after an edge is dropped |
| GraphOperations.CommitKeepsGraph | block.c:5308-5316 | committing frees exactly the removed edges and leaves the rest of the graph alone |
| BlockLayers.BlockLayer.Finalize | include/qemu/transactions.h:57-64 | runs the log from its end, to commit or to roll back; a rollback takes the contexts back to where they were |
| BlockLayers.BlockLayer.RefreshNode | block.c:2509-2580 | accepts a node exactly if its users do not conflict, it is writable if written, its size is aligned if need be, and its driver agrees; then derives its children's permissions |
| BlockLayers.BlockLayer.DoRefreshPerms | block.c:2588-2610 | goes through the list up to the first node that does not accept its users |
| BlockLayers.BlockLayer.RefreshFrom | block.c:2612-2632 | succeeds exactly if the nodes below the starts can be given permissions that fit, and gives them those |
| BlockLayers.BlockLayer.TrySetPerm | block.c:2708-2740 | sets permissions if they can be had; otherwise everything is as before, and that is reported as success exactly if nothing more was asked for |
| BlockLayers.BlockLayer.ReplaceNodeNoperm | block.c:5347-5379 | exactly the parents that may move now point to the new node; fails exactly on a frozen one that should move or, without auto_skip, on one that should not |
| Chains.FindCowParent | block.c:5409-5418 | walks the filter-or-backing chain of the old node and stops at a node of the chain right above the new one |
| Chains.OneCowParent | block.c:5409-5433 | in a graph without cycles that node is the only one, so its link is the one to remove |
| BlockLayers.ChainLinkStays | block.c:5412-5433 | the link found before the replacement is still the same link, to the same node, after it |
| BlockLayers.BlockLayer.ReplaceNode | block.c:5395-5452 | moves the parents that may move, removes the last link of the chain from the old node to the new one if asked to, and settles permissions below both nodes; or restores everything; the graph stays acyclic and free of conflicts |
| Placement.ShiftBack | block.c:3032-3052 | after a move of everything that has to move with a node, the move back meets no objection and leaves every node, job and user where it was |
| Placement.MeetingEnds | block.c:3021-3056 | after the move that an attach makes, exactly what the abort tests for tells which node has moved, and moving that one back restores all contexts |
| BlockLayers.RemembersAfter | block.c:3021-3061 | whatever else is changed after an attach, its abort callback finds the graph in which the nodes were moved |
| BlockLayers.BlockLayer.Meet | block.c:3112-3149 | brings parent and child into one context, by moving the child or else the parent, exactly if one of them can move |
| BlockLayers.BlockLayer.MoveBack | block.c:3021-3056 | the abort of an attach takes both nodes back, and the moves that must not fail do not |
| BlockLayers.BlockLayer.AttachNoperm | block.c:3079-3224 | attaches exactly if no cycle would be closed, an inactive child is asked for nothing but reads, and both ends can be brought into one context |
| BlockLayers.BlockLayer.AttachChild | block.c:3276-3307 | the caller's reference goes to the new edge, or is dropped and the graph and all contexts are as before; succeeds exactly if the edge can be made, its ends can share a context and permissions fit |
| BlockLayers.BlockLayer.Append | block.c:5489-5525 | the new node sits above `top`, in one context with it, and the other users of `top` have moved to it except those bound to `top` or below the new node; or everything is restored |
| BlockLayers.BlockLayer.Unlink | block.c:3481-3541 | removes the old backing child unless the node has no driver, cannot have a backing file or the link is frozen |
| BlockLayers.BlockLayer.SetBacking | block.c:3574-3596 | the backing link leads to the new node, in one context with it, or nowhere, and permissions below fit; or everything is restored |
| BlockLayers.BlockLayer.RootUnrefChild | block.c:3314-3339 | the edge is gone whether or not permissions could be refreshed; its node goes to the main context with all that has to move with it, exactly if all users accept; its reference is dropped later |
| BlockLayers.AbortedIsQuiet | util/transactions.c:60-79 | a rolled-back operation leaves counts, links, acyclicity and freedom from conflicts in order |
| BlockLayers.CommittedIsQuiet | util/transactions.c:81-100 | so does a committed one |
| AioContexts.ContextChange.ChangeNode | block.c:7671-7707 | visits what is tied to the node, records what has to move, and fails only if some user concerned does not accept |
| AioContexts.ContextChange.ChangeParent | block.c:7587-7612 | follows an edge to its user once: a node, a job or some other user |
| AioContexts.ContextChange.ChangeJob | blockjob.c:147-171 | a job moves together with all nodes it uses |
| AioContexts.ContextChange.TryChange | block.c:7720-7757 | moves exactly the nodes that must move together, with their jobs and users, if and only if all of these accept; otherwise changes nothing; if tied nodes shared a context before, what moves is everything connected with the node, and they share one afterwards |
| AioContexts.Complete | block.c:7671-7707 | when the recursion is done, exactly the component and its users have been recorded |
| AioContexts.ComponentIsWhole | block.c:7671-7707 | the component is closed under the ties that the recursion follows |
| AioContexts.ComponentIsConnected | block.c:7671-7707 | if tied nodes share a context, the component of a node that is not there yet is everything connected with it by ties |
| AioContexts.UniformStays | block.c:7720-7757 | a move that ignores no edge keeps tied nodes, jobs and users in one context |
| Jobs.UpdateRc | job.c:804-815 | a job is left without an error exactly if it neither failed nor was force-cancelled |
| Jobs.CancelAsync | job.c:888-924 | cancelling changes no status and no result, ends a user pause, is ignored only if soft and too late, and a forced cancel stays forced |
| JobInvariant.StepKeepsInv | job.c:59-1270 | every step of the job machinery keeps statuses legal, pauses counted and transactions consistent |
| JobInvariant.PausingIsOk | blockjob.c:93-127 | user pauses, drains, I/O errors and resets keep the pause count equal to the reasons to pause |
| JobInvariant.AbortKeepsInv | job.c:929-968 | starting an abort leaves no job of the transaction able to succeed except a spared initiator |
| JobInvariant.GatheredKeepsInv | job.c:1037-1061 | all jobs become PENDING together, once all have completed with 0 |
| JobInvariant.DoFinalizeKeepsInv | job.c:996-1008 | preparing and finalizing a transaction keeps it consistent, whatever the callbacks return |
| JobInvariant.ExitKeepsInv | job.c:1064-1099 | so does a job's completion |
| JobInvariant.CancelKeepsInv | job.c:1137-1163 | so does cancelling, started or not, soft or forced, for the first time or again |
| JobInvariant.FirstFailure | job.c:996-1008 | the first job of the list whose prepare callback is called and fails, if there is one |
| JobOutcomes.StepKeepsEnded | job.c:846-1163 | every step keeps it that jobs in a transaction have got neither commit nor abort, and those that have left exactly what is due to them |
| JobOutcomes.AbortStepLeaves | job.c:846-883 | the abort loop lets a job go with abort, or with commit if it was spared and not force-cancelled |
| JobRuns.StatusesFollowTable | job.c:59-72 | in every run, statuses change only as the table allows, completion is never undone, and NULL is reached once, from CREATED or CONCLUDED |
| JobRuns.PausesAreCounted | job.c:690-758 | in every run, the pause count is one for a job not started, one for a user pause and one per drain |
| JobRuns.AssertsHold | job.c:888-1163 | in every run, the assertions in start, resume, cancel, completion, finalization, abort and iostatus reset hold, also those that the loops over the transaction reach on other jobs, if and only if the step does not cancel a never-started job that is ABORTING already |
| JobRuns.PendingIsBarrier | job.c:1037-1061 | in every run, a job becomes PENDING only in the step in which the last job of its transaction completes, all with 0 |
| JobRuns.AllOrNothing | job.c:846-883 | in every run, exactly one of commit and abort has been called, once, on each job that has left its transaction, unless its creation failed: commit if the transaction did not abort, after all prepare callbacks returned 0 and on all its jobs; otherwise abort, unless the job was spared and not force-cancelled since, and then another job had failed to prepare before |
| JobRuns.NoEarlyCall | job.c:846-883 | in every run, commit and abort are called only on jobs that have completed and leave their transaction |
| JobRuns.AbortBegins | job.c:929-968 | in every run, an abort starts in a step of one of the jobs and force-cancels all others; that job is spared if and only if it was finalizing the transaction and the first prepare callback to fail was not its own |
| JobRuns.FailedPrepare | job.c:996-1008 | for all results of the prepare callbacks, which jobs finalizing commits and which it aborts; some are committed and others aborted if and only if the first callback to fail is not that of the job that asked to finalize |
| JobWindows.ResumeWindow | job.c:740-758 | whatever the coroutine does while the lock is given up in a resume, the job is left in order if and only if it reports no I/O error |
| JobWindows.CancelWindow | job.c:888-924 | whatever the coroutine does while the lock is given up in a cancel, the job is left in order if and only if no I/O error is reported during `user_resume`, which is called exactly if the job was paused by the user or reported an I/O error during the cancel callback |
| JobWindows.EmptyWindows | job.c:888-924 | if the coroutine does nothing in these windows, this is the cancel that the job machinery has |
| JobWindows.ErrorInWindow | job.c:888-912 | a run, a resume and a cancel after which the reset of the iostatus fails its assertion |
| JobExamples.TornTransaction | job.c:996-1008 | a run in which one job of a transaction is committed and the other aborted |
| JobExamples.CancelTwice | job.c:1064-1067 | a run in which a never-started job is cancelled again while the abort waits for another job, and the assertion in its completion fails |
| JobLists.JobList.CompletedTxnAbort | job.c:929-957 | the first loop force-cancels each of the other jobs once |
| JobLists.JobList.FinalizeAborted | job.c:958-964 | the second loop finalizes jobs up to one that has not completed, which has been cancelled; each gets what is due to it |
| JobLists.JobList.Prepare | job.c:972-987 | the loop stops at the first job that does not return 0, and returns non-zero exactly if there is one |
| JobLists.JobList.FinalizeTxn | job.c:996-1008 | prepares all jobs, then finalizes or aborts them |
| JobLists.JobList.CompletedTxnSuccess | job.c:1037-1061 | waits, or makes all jobs PENDING and finalizes if none needs to be finalized by hand |
| JobLists.JobList.CompletedJob | job.c:1064-1077 | aborts or completes the transaction according to the job's result |
| Buffers.CompareBuffers | qemu-img.c:1263-1288 | the longest run of whole chunks with the same outcome as the first |
| Buffers.FindNonzero | qemu-img.c:1132-1146 | the first sector with a byte that is not zero, or none |
| Compare.CheckEmptySectors | qemu-img.c:1307-1328 | whether a range reads as zero, or cannot be read |
| Compare.CompareChunk | qemu-img.c:1540-1590 | compares a range by status first and by contents where both have data |
| Compare.CompareTail | qemu-img.c:1598-1626 | the rest of the longer image has to read as zero |
| Compare.CompareImages | qemu-img.c:1495-1626 | without strict mode and without failures, 0 exactly if the images read the same with the shorter one padded with zeroes, 1 otherwise |
| Rebase.WrittenReads | qemu-img.c:4093-4120 | a write that allocates whole units changes only what is written |
| Rebase.NextRange | qemu-img.c:4000-4060 | for any unit, the next range is aligned, not empty and unallocated in the overlay; it goes beyond where it started exactly if that is less than a buffer into its unit |
| Rebase.ExtendedIsUnallocated | qemu-img.c:4047-4060 | rounding a range out to whole units reaches no allocated unit, so that the assertion after it holds |
| Rebase.ExtendedAdvances | qemu-img.c:4047-4060 | when the extended range goes beyond the offset it was made for, and when it is as long as the buffer |
| Rebase.AdvancesEverywhere | qemu-img.c:4000-4060 | every offset of the image is moved on from if and only if units or the image fit the buffer |
| Rebase.Iterate | qemu-img.c:4000-4120 | one iteration keeps what the image reads as, settles everything up to the next offset, and where that is |
| Rebase.CopyDifferences | qemu-img.c:4093-4120 | copies exactly the differing units of the range, with the contents of the old backing file |
| Rebase.LargeUnitsStall | qemu-img.c:4000-4120 | for every unit and image size above the buffer size there are images on which any number of iterations leaves the loop at the same offset |
| Rebase.ExactlyDifferencesCopied | qemu-img.c:4093-4120 | a complete pass leaves exactly the differing units allocated in addition |
| Rebase.SafeRebase | qemu-img.c:3950-4135 | if units or the image fit the buffer, the loop ends; the overlay reads the same after every write and after the switch, past the end of either backing file and without one, also when something fails |
| Sparse.IsAllocatedSectors | qemu-img.c:1158-1207 | what is called unallocated is zero and followed by data; in what is called data every run of zeroes is shorter than the alignment; there is progress, and a part that ends early ends aligned; exactly which first sectors count as data |
| Sparse.ShortRunIsData | qemu-img.c:1148-1157 | an input whose first sector is zero and is reported as data |
| Sparse.IsAllocatedSectorsMin | qemu-img.c:1216-1253 | the same, and data goes on over every run of zeroes shorter than `min`: it ends only in front of `min` zeroes or of nothing but zeroes, and goes over no run longer than `min` and the alignment allow |
| Convert.SelectPart | qemu-img.c:1699-1709 | finds the source that holds a sector of the concatenation, empty sources included |
| Convert.ImgConvert.IterationSectors | qemu-img.c:1711-1816 | the next part is not empty, inside the image, fits the buffer if it is data, is zero if it is said to be, and is what the target shows already if it is left to the backing file; with salvage it always finds one |
| Convert.ImgConvert.CoRead | qemu-img.c:1818-1869 | reads a part of the concatenation, across sources, except for unreadable sectors that salvage makes zero; fails only without salvage and on an unreadable sector |
| Convert.ImgConvert.CoWrite | qemu-img.c:1872-1934 | makes a part of the target hold what it is to hold; only what the target shows from the start is skipped |
| Convert.ImgConvert.DoCopy | qemu-img.c:2090-2151 | with one coroutine, unless something fails the target shows the concatenation of the sources, through a backing file or not; with salvage at most unreadable sectors are zero instead |
| ConvertRun.StepKeepsInv | qemu-img.c:1967-2088 | every step of every coroutine keeps the invariant, a chunk written, a query under the lock and a failure not yet reported being steps of their own |
| ConvertRun.SuccessIsACopy | qemu-img.c:2082-2087 | in every interleaving, success means that every part was written and the target is the concatenation of the sources |
| ConvertRun.ClaimsPartition | qemu-img.c:1992-2020 | the parts that coroutines take follow each other without gap or overlap |
| ConvertRun.WritesInOrder | qemu-img.c:2034-2061 | with ordered writes and no failure, a chunk is written only when everything before it has been copied |
| ConvertRun.WaiterHasOwner | qemu-img.c:2034-2041 | a waiting coroutine has another at work on the part that ends where its own starts, also after failures |
| ConvertRun.FinishWakes | qemu-img.c:2063-2078 | finishing that part wakes it |
| ConvertRun.NoDeadlock | qemu-img.c:1985-2088 | until all coroutines have left, one of them can take a step in which nothing fails |
| ConvertEnd.StepDecreases | qemu-img.c:1985-2088 | every step, also one that fails or wakes another coroutine, makes a measure smaller |
| ConvertEnd.RunsAreFinite | qemu-img.c:1985-2151 | every interleaving has at most eight steps per sector and four per coroutine |
| ConvertEnd.RunEnds | qemu-img.c:2082-2151 | where no step is left, all coroutines have left, and the conversion has failed or the target is the concatenation of the sources |

## Left out

- Exclusive sections: CPUs do not come and go, work queues are not modelled, and memory is sequentially consistent as the barriers make it.
- Draining and quiescing nodes, graph locks and other threads: operations on the block graph run alone, on drained nodes.
- Sibling lists are sets: undoing a change puts an edge back at the head of its lists, so their order is not restored.
- Reopening images, `inherits_from`, node limits and permissions pending in a reopen queue.
- bdrv_replace_child_bs does not check for cycles and has no place in the claim that the graph stays acyclic.
- Deleting a node: what closing it does to its own children is not followed further.
- Driver callbacks are functions of their arguments; that a node without bdrv_child_perm has no children is left to the drivers.
- Jobs: drivers answer a forced cancel, and a cancel of a job that is not READY, with a forced cancel; ready is signalled at most once; callbacks do not call back into the job API, and apart from what JobWindows says nothing else happens while they run.
- Jobs: jobs join a transaction before any of its jobs is started, only a CREATED job is started, and nobody asks to finalize a transaction while it is being aborted.
- Jobs: progress, speed, sleeping, `busy`, reference counts and events; an abort need not end if a sibling was never started.
- Compare: strict mode decides on status flags whose meaning is not modelled.
- Rebase: the allocation unit is the write alignment, and compression is not modelled.
- Convert: copy offload, bitmaps and 64-bit overflow; block status comes in whole sectors of one source, and one write takes effect at one moment. In ConvertRun a sector that cannot be read with salvage counts as a zero sector of the source.
- AioContexts: whether a user accepts a move does not depend on the context, and context notifiers are not modelled.
- Command-line front ends, option handling, progress output and error messages.
