# Core partitioning: a verified model

The repository moves an application's system calls onto chosen cores. A preloaded library
(`ld_preload.c`, `ipc.c`, `fdtable.c`, `affinity.c`) gives each intercepted descriptor a service thread
that executes the calls made on it. A kernel module (`simple_proc_ktimer/simple_proc.c`) measures core
utilisation on a timer, moves the boundaries between groups of cores, spreads interrupt queues over them,
and publishes the boundaries, from which the library builds the CPU masks of its service threads.

This project models those parts in Dafny and proves what they keep over every run.

| file | what it models |
|---|---|
| `Basics.dfy` | what several parts share |
| `Channel.dfy` | the six-semaphore handshake over one shared buffer, one step per wait, post and copy |
| `Delegation.dfy` | any number of application threads and entries, and the table's read-write lock, as a transition system |
| `DelegationInvariant.dfy` | what every step keeps; token conservation and the lifetime of table nodes |
| `DelegationReplies.dfy` | replies, order and buffer exclusion when no two threads talk to one entry |
| `DelegationKernel.dfy` | the value of every delegated call against the kernel as a function of what it was asked before |
| `DelegationCalls.dfy` | which calls reach the kernel, one to one; what a lookup finds, what is registered, and what `close` leaves behind |
| `DelegationStartup.dfy` | service threads that do not find their own entry, and exactly who waits for them for ever |
| `DelegationProgress.dfy` | a measure that every step decreases; exactly which calls get stuck |
| `DelegationCrossing.dfy` | runs that show why one client per entry is needed, how a lock leaks, and how descriptor 0 strands a reader |
| `Preload.dfy` | the wrappers as one application thread sees them, against direct kernel calls |
| `FdTable.dfy` | the doubly linked descriptor table and the pool, on the heap |
| `Percent.dfy` | the percentage arithmetic in unsigned 64-bit words |
| `Timer.dfy`, `IrqSpread.dfy` | constants, sums and the interrupt redistribution loops |
| `AppController.dfy`, `SingleController.dfy`, `SocketControllers.dfy` | the APP, SINGLE, CROSS and PER controllers |
| `AppWitness.dfy` | runs of APP from the coded layout in which its groups fail |
| `Dynamic.dfy` | printing the boundaries and reading them with `fgets` and `atoi` |
| `Affinity.dfy` | the CPU masks, composed with the controllers and the text |

## Conventions

- The kernel is arbitrary. In the concurrent model an execution returns any value; in
  `DelegationKernel.dfy` it is any function of the requests made before and the request itself, and in
  `Preload.dfy` any function of the calls made before and the call itself, required to return an `int` where the C
  type is `int` (`Typed`), and to create descriptors that are not open where a lemma says so (`Fresh`).
- Utilisation readings are an arbitrary function on each tick; so are the values that CROSS and PER read
  one past the end of their averages (lines 405, 479, 617 of `simple_proc.c` and their siblings).
- Entries of the table are numbered in the order in which they are added, which is the reverse of the
  order in which a walk meets them; those below `Delegation.Bar` lie behind an entry for descriptor 0.
- Runs start from the layouts that `init_simpleproc` writes, or from any layout that meets the same
  condition where the result is the same.

## Where the code does not do what it seems to

- The two directions of a handshake use different mutexes over the same buffer, so two threads using one
  descriptor can lose a request and cross replies: `DelegationCrossing.TwoClientsCanLoseARequest`.
- `epoll_create` takes the read lock again instead of releasing it when it fails; every later call that
  needs the write lock waits for ever: `Preload.HangsIff`, `DelegationInvariant.LeakBlocksWriters`.
- An `epoll_create` that returns 0 while another thread waits for a service thread that has not started
  strands that thread with its read lock held, and after it every writer:
  `DelegationCrossing.ZeroStrandsReader`, `DelegationStartup.DoomedIff`.
- A delegated `lseek` returns its offset through an `int`: `Preload.CallsAreTransparent`,
  `DelegationKernel.ReturnsKernelAnswer`.
- The lookups compare a descriptor with NULL and so stop at descriptor 0, and a program that has closed
  its standard input can list a descriptor twice, 0 itself included -- which happens only after 0 has been
  listed: `FdTable.ZeroHidesEntries`, `Preload.ZeroDuplicatesAnEntry`, `Preload.KeepsDistinctIff`,
  `Preload.DistinctUntilZero`.
- `fdtable_from_pool` does not count the node it adds: `FdTable.Table.FromPool`.
- APP starts with an application group that overlaps the block group, so its groups are never a
  partition, and a busy application group makes the readings run past the table:
  `AppController.CodedRunOverlaps`, `AppController.ReadsInRange`, `AppWitness.ReadingsCanRunPastTable`.
- APP tests for sort index 4, which no group has, so block queues are never redistributed:
  `AppController.RunKeepsSocket`.
- The file masks of PER and APP leave the last block core out and can be empty, and so can the network
  mask of APP, which is not the network system-call group even at start-up:
  `Affinity.PerMasksMissLastCore`, `Affinity.IdlePerMaskIff`, `Affinity.AppMasksIff`,
  `Affinity.AppFileMaskCanBeEmpty`, `Affinity.AppNetMaskCanBeEmpty`, `Affinity.CodedNetMask`.
- A percentage rounds up, not down: `Percent.ShareIsRoundedUp`.

## Model

| member | source | states |
|---|---|---|
| `Channel.NewEntryTokens` | fdtable.c:67-75 | a new entry starts with exactly one token in each direction and both mutexes free |
| `Channel.ClientKeepsTokens` | ipc.c:43-67 | a wrapper's step, from either handshake, moves a token between a semaphore and its own role and never creates or destroys one |
| `Channel.ServiceKeepsTokens` | ipc.c:3-29 | the same for the service thread's step, whatever the other clients of the entry are doing |
| `Channel.MutexNeverBlocks` | ipc.c:6-46 | with the tokens balanced, a thread that reaches `mutex` or `mutex2` finds it free |
| `Channel.ClientKeepsCarries` | ipc.c:43-67 | with one client, the buffer and the service thread's copies hold that client's request or its answer, at every client step |
| `Channel.ServiceKeepsCarries` | ipc.c:3-29 | the same at every service step |
| `DelegationInvariant.InvStep` | ld_preload.c:573-634 | every step of any client or service thread, whatever descriptors are registered, keeps lock exclusion, live references, distinct reachable descriptors, tokens and the close phases together |
| `DelegationInvariant.TokensConserved` | ipc.c:5-67 | for any number of clients, in every state of every run: `empty + full +` threads between wait and post is 1, likewise `empty2/full2` and both mutexes, and the waiting clients equal the requests and replies under way |
| `DelegationInvariant.MutexesNeverBlock` | ipc.c:6-63 | no thread is ever blocked on `mutex` or `mutex2` in any run |
| `DelegationInvariant.ServiceCopiesApart` | ipc.c:6-66 | for any number of clients, no client is at a copy while the service thread is at one on the same side of the exchange |
| `DelegationInvariant.ClientsCopyApart` | ipc.c:46-66 | and no two clients are at a copy on the same side |
| `DelegationInvariant.OneReachableEntry` | fdtable.c:87-119 | in every state at most one entry that lookups reach carries a given descriptor, so the first match is the only one |
| `DelegationInvariant.NoDanglingReference` | ld_preload.c:586-634 | every node a wrapper refers to is live and still carries the descriptor it was found by |
| `DelegationInvariant.NodeFreedSafely` | ld_preload.c:2063-2094 | a node is freed only by the client that joined its service thread, after that thread left its loop, while no other client is inside the table, and no reference to it remains |
| `DelegationInvariant.LeakBlocksWriters` | ld_preload.c:1587-1594 | once a read lock has leaked, no wrapper that needs the write lock acquires it in any continuation |
| `DelegationReplies.DelegatedCallReturnsItsResult` | ld_preload.c:209-509 | with one client per entry, in every interleaving, a wrapper that has its reply sent the last request, that request has been executed exactly once, and the wrapper returns the value of that execution |
| `DelegationReplies.RequestsRunOnceInOrder` | ipc.c:3-67 | the executions of an entry are its requests in the order sent, each once, with at most one still to run |
| `DelegationReplies.BufferIsExclusive` | ipc.c:8-65 | with one client per entry, while that client copies to or from the buffer on either side the service thread does not |
| `DelegationKernel.ReturnsKernelAnswer` | ld_preload.c:227-501 | with one client per entry, in any interleaving, a delegated call returns the kernel's answer to its own request after exactly the requests the kernel was given before one instant between the call's lookup and its return; an `lseek` returns the `int` congruent to that answer modulo 2^32, and so the answer itself if and only if it fits |
| `DelegationKernel.ExecutedAt` | ld_preload.c:211-501 | every execution in an entry's history took place at one step of its service thread |
| `DelegationCalls.NoCallIsDropped` | ld_preload.c:573-2097 | for any number of clients and any schedule, a call on a descriptor is over only if in between its thread made that very call or -- never for `close` and `shutdown` -- took the service thread's reply to it |
| `DelegationCalls.ExactlyOneKernelCall` | ld_preload.c:209-2097 | with one client per entry, between the start of any call and its return the kernel is called for it exactly once, and with its request: delegated, direct, creating and dismissing calls alike |
| `DelegationCalls.EveryKernelCallHasItsCaller` | ld_preload.c:209-509 | and every kernel call of the run is made for exactly one client |
| `DelegationCalls.CreatedDescriptorIsReturned` | ld_preload.c:657-905 | a creating call never returns anything but the descriptor that the kernel gave it, registered or not |
| `DelegationCalls.DismissedEntryIsGone` | ld_preload.c:602-652 | in every run, when a `close` or `shutdown` that found an entry has come back, that entry's node has been freed |
| `DelegationCalls.LookupIff` | fdtable.c:87-119 | a call is delegated if and only if an entry for its descriptor can be reached with none for 0 before it, of the right kind unless the call is `close` or `shutdown`; then to such an entry, otherwise directly |
| `DelegationCalls.RegistersIff` | ld_preload.c:684-720 | a creating call adds one entry, for its descriptor and of its kind, if and only if the descriptor is not negative, cannot be reached already, is not 0 for a file, and fewer than 65535 entries are live |
| `DelegationCalls.AcceptsIff` | ld_preload.c:1264-1294 | a reply adds an entry if and only if `accept` returned a positive descriptor that cannot be reached already; it is a network entry |
| `DelegationCalls.BeginIff` | ld_preload.c:188-201 | a service thread enters its loop if and only if no newer entry is for 0, and ends at once if and only if it or a newer entry is for 0 |
| `DelegationCalls.LockModes` | ld_preload.c:586-2063 | `close`, `shutdown` and the creating wrappers but `epoll_create` wait until nobody holds the table lock, all others only for a writer |
| `DelegationStartup.DoomBegins` | ld_preload.c:188-196 | a client becomes unable ever to return exactly when an `epoll_create` registers descriptor 0 while the client talks to an entry whose service thread has not looked itself up |
| `DelegationStartup.DoomedIff` | ld_preload.c:1587-1616 | over any run, a client is in that condition exactly when such a registration happened during its call |
| `DelegationStartup.DoomedNeverReturns` | ld_preload.c:188-201 | such a client keeps its read lock in every continuation |
| `DelegationProgress.StepSpends` | ld_preload.c:187-211 | every step that starts no new call strictly decreases a measure over all program counters |
| `DelegationProgress.CallsMakeProgress` | ipc.c:3-67 | while some call has neither returned nor got stuck, some thread can step: apart from leaked locks and doomed clients, holding the table lock across a handshake cannot deadlock |
| `DelegationProgress.RunsEnd` | ld_preload.c:209-509 | without new calls every schedule ends within the measure's initial value |
| `DelegationProgress.OnlyStuckRemain` | ld_preload.c:1592-1594 | when nothing can move, the calls that have not returned are exactly the stuck ones: doomed clients, and calls that need the write lock after a leak or while somebody is doomed |
| `DelegationProgress.StuckNeverReturns` | ld_preload.c:586-1594 | a stuck call stays stuck in every continuation of the run |
| `DelegationProgress.FinishedMeansReturned` | ld_preload.c:187-211 | a run without a leak, and without a registration of 0 that comes too early, has returned every call when nothing can move, and every call on a descriptor started in it has been made: directly, or by a service thread whose reply came back |
| `DelegationCrossing.RepliesCross` | ipc.c:6-63 | any run that ends with two clients just admitted to the same entry at rest, whatever other clients, entries and locks there are, can continue so that the second takes the answer to the first one's request and its own is overwritten unread |
| `DelegationCrossing.TwoClientsCanLoseARequest` | ipc.c:43-67 | that situation is reached from the initial state, for any two requests and any answer |
| `DelegationCrossing.ZeroStrandsReader` | ld_preload.c:188-201 | with one client per entry and no lock leaked, a run in which a reader of an opened file waits for ever because another thread's `epoll_create` returned 0 |
| `DelegationCrossing.FailedEpollCreateLeaks` | ld_preload.c:1587-1594 | a run in which a failed `epoll_create` returns with its read lock held twice |
| `FdTable.Position` | fdtable.c:87-119 | a lookup returns the position of a match of the right kind with no stopping entry up to it, and fails only if every match is hidden by one |
| `Preload.ListedIsFindable` | fdtable.c:87-100 | the lookup of the wrappers is the lookup of the linked table |
| `Preload.FieldsAgree` | ld_preload.c:227-501 | the reply field that the dispatch fills for each call is the one its wrapper returns, whatever older requests left in the other |
| `Preload.Shim.Forward` | ld_preload.c:908-1115 | a forwarding wrapper, delegated or not, gives the kernel the call once and returns its answer, except that an `lseek` may return the `int` congruent to it modulo 2^32 |
| `Preload.Shim.AcceptOn` | ld_preload.c:1222-1294 | `accept` returns the kernel's answer and registers it as a network descriptor exactly when it is positive, unlisted, and the listening socket was delegated |
| `Preload.Shim.Dismiss` | ld_preload.c:573-652 | `close` and `shutdown` delete the first matching entry, then make the call; they hang exactly when a read lock is leaked |
| `Preload.Shim.Create` | ld_preload.c:657-905 | `socket`, `open` and `openat` return the kernel's answer and register it under each wrapper's own condition on the result and the thread limit |
| `Preload.Shim.CreateEpoll` | ld_preload.c:1565-1642 | `epoll_create` registers its result, or leaks two read locks when it is negative or listed |
| `Preload.Shim.Invoke` | ld_preload.c:573-2097 | any intercepted call has the result and the state of the specification |
| `Preload.CreatedIsFound` | ld_preload.c:657-905 | a descriptor created while there is room is found by the next lookup; a new entry by `read`, `write` and `lseek` exactly if `open` or `openat` made it, and by all other wrappers exactly if not |
| `Preload.OnlyCreatedIsAdded` | ld_preload.c:657-1294 | what is added is the kernel's answer to a creating call, was not found before, and is 0 only from `socket` and `epoll_create` |
| `Preload.DismissedIsGone` | ld_preload.c:573-652 | under a kernel that creates fresh descriptors, after `close` or `shutdown` no lookup finds the descriptor |
| `Preload.KernelSeesEachCallOnce` | ld_preload.c:573-2097 | as long as calls return, the kernel has been given exactly the program's calls, once each and in order |
| `Preload.CallsAreTransparent` | ld_preload.c:908-956 | in any sequence of calls, a call that returns has the direct result if and only if it is not a delegated `lseek` whose offset needs more than 32 bits, and a delegated `lseek` has the one `int` congruent to its offset modulo 2^32 |
| `Basics.Trunc32Wraps` | ld_preload.c:470-470 | a conversion to `int` gives the value in the range of `int` that differs by a multiple of 2^32 |
| `Preload.HangsIff` | ld_preload.c:1587-1594 | a call whose predecessors returned never returns if and only if it needs the write lock and an earlier `epoll_create` failed |
| `Preload.LeakFreezesTable` | ld_preload.c:586-849 | after a failed `epoll_create` no call but `accept` and `epoll_create` changes the table |
| `Preload.OthersReturn` | ld_preload.c:573-2097 | a call that is none of `close`, `shutdown`, `socket`, `open` and `openat`, or is an `open` answered by less than 3, always returns |
| `Preload.LeaksOnFailure` | ld_preload.c:1590-1594 | with a kernel that creates fresh descriptors, `epoll_create` leaks if and only if it fails: the entries that lookups reach are always open and distinct |
| `Preload.ProgramsCannotTell` | ld_preload.c:573-2097 | every result of a program is the direct one if and only if every delegated `lseek` fits in 32 bits and no call needs the write lock after a failed `epoll_create` |
| `Preload.LargeOffsetComesBackNegative` | ld_preload.c:908-956 | an offset of 2 GiB in an opened file is returned as -2147483648 |
| `Preload.CloseHangsAfterFailedEpoll` | ld_preload.c:586-1592 | after a failed `epoll_create` a `close` does not return and does not reach the kernel |
| `Preload.ZeroDuplicatesAnEntry` | ld_preload.c:684-800 | from the start, four calls leave two entries for one descriptor, one of them behind an entry for 0 |
| `Preload.KeepsDistinctIff` | ld_preload.c:684-870 | in a table with room and without duplicates, whatever is called next and whatever the kernel answers, no descriptor becomes listed twice if and only if 0 is not listed |
| `Preload.ZeroStays` | fdtable.c:91-96 | descriptor 0 is listed after a call exactly when it was before or the call lists it: no call takes it out |
| `Preload.DistinctUntilZero` | ld_preload.c:573-2097 | over any sequence of calls that return, descriptors are distinct as long as none has listed 0 |
| `Preload.DistinctFromNowIff` | ld_preload.c:573-2097 | after any such sequence, with room and no duplicate yet, every call that may follow keeps descriptors distinct if and only if none so far has listed 0 |
| `FdTable.Table.constructor` | fdtable.c:4-35 | an empty well-formed table and an empty pool |
| `FdTable.Table.Add` | fdtable.c:50-85 | the new node comes first, all others follow in order, the list stays well formed and the counter wraps at 32 bits |
| `FdTable.Table.Find` | fdtable.c:87-100 | the walk returns the first entry with the descriptor, and null exactly when lookup cannot reach one |
| `FdTable.Table.FindKind` | fdtable.c:103-117 | the walk returns exactly the entry at the position that the wrappers' lookup by kind gives, and null when there is none |
| `FdTable.Table.FindThread` | fdtable.c:138-151 | the walk returns the first entry of the thread with no stopping entry up to it, and null exactly when there is none |
| `FdTable.Table.Delete` | fdtable.c:153-188 | removes the first match and nothing else, returning 0; returns 2 and changes nothing when lookup fails; never returns 1 |
| `FdTable.Table.EntryDelete` | fdtable.c:190-213 | removes the first match if there is one and returns 0 in either case |
| `FdTable.Table.Traversal` | fdtable.c:215-228 | lists the nodes in order |
| `FdTable.Table.TraversalReverse` | fdtable.c:230-243 | following `prev` from the tail lists exactly the reverse |
| `FdTable.BackwardsTwice` | fdtable.c:215-243 | the two traversals are mutual reverses |
| `FdTable.FindableIff` | fdtable.c:87-100 | lookup succeeds if and only if some match has no stopping entry up to it |
| `FdTable.FindableWithoutStops` | fdtable.c:91-96 | if no entry has descriptor 0 or -11, negative ones included, lookup succeeds exactly for the descriptors in the table |
| `FdTable.GuardedAddKeepsDistinct` | ld_preload.c:684-720 | adding only what lookup does not find keeps descriptors distinct in such a table |
| `FdTable.ZeroHidesEntries` | fdtable.c:91-91 | an entry for descriptor 0 hides every entry behind it from lookup, and a guarded add can then duplicate one |
| `FdTable.CountedExactly` | fdtable.c:80-180 | until something is taken from the pool the counter is the length of the table |
| `FdTable.Table.ToPool` | fdtable.c:368-392 | the first match moves to the front of the pool with descriptor -1, both lists stay well formed and the nodes of both together are conserved |
| `FdTable.Table.FromPool` | fdtable.c:394-409 | the most recently pooled node becomes the first entry, nodes are conserved, and the counter falls one further behind the length modulo 2^32 |
| `Percent.DeltasExact` | simple_proc_ktimer/simple_proc.c:244-252 | for monotone counters whose busy time fits in a word every delta is exact, although the interrupt expression may wrap on the way, and the dynamic delta is the total |
| `Percent.ShareIsRoundedUp` | simple_proc_ktimer/simple_proc.c:254-282 | a percentage is in 0..100 and is the busy share in hundredths rounded up |
| `Percent.ShareGrows` | simple_proc_ktimer/simple_proc.c:254-282 | over the same idle time more work never gives a smaller percentage |
| `Percent.ReportIsConsistent` | simple_proc_ktimer/simple_proc.c:244-282 | user, system and interrupt percentages never exceed the total, and the controllers' value is the total |
| `Percent.ReportIsAccurate` | simple_proc_ktimer/simple_proc.c:244-282 | each of the five percentages is the rounded-up share of its own counter's growth against the idle time, an idle time of zero counting as one |
| `Percent.DenominatorIsZero` | simple_proc_ktimer/simple_proc.c:251-278 | with any counters, the divisor is zero exactly when busy and idle deltas add up to 2^64 |
| `Percent.BusyTelescopes` | simple_proc_ktimer/simple_proc.c:236-290 | over any run of samples the busy deltas add up to the growth of the counters |
| `Percent.Meter.Sample` | simple_proc_ktimer/simple_proc.c:236-291 | for any counters that make no divisor zero, the sampling loop stores each core's percentages and the new counters; where the interval fits, each stored percentage is the rounded-up share of its own counter, and they are consistent |
| `Timer.Accumulate` | simple_proc_ktimer/simple_proc.c:299-307 | the accumulation loop computes the sum and the number of cores of a range, also an empty one |
| `Timer.QuotientRounds` | simple_proc_ktimer/simple_proc.c:299-330 | averages are rounded toward zero |
| `IrqSpread.Redistribute` | simple_proc_ktimer/simple_proc.c:522-560 | for any number of queues and any non-empty ranges, queue j goes to element j mod total of the concatenated ranges, highest socket first |
| `IrqSpread.TargetsInRange` | simple_proc_ktimer/simple_proc.c:522-560 | every target is a core of one of the ranges in use |
| `IrqSpread.TargetOf` | simple_proc_ktimer/simple_proc.c:522-560 | with two sockets: the queues count up the cores of the upper socket, then those of the lower one if it is in use, and start again |
| `IrqSpread.ShareOf` | simple_proc_ktimer/simple_proc.c:522-560 | exactly how many queues each core gets |
| `IrqSpread.LoadsBalanced` | simple_proc_ktimer/simple_proc.c:522-560 | the loads of two cores differ by at most one |
| `IrqSpread.PoolDistinct` | simple_proc_ktimer/simple_proc.c:1169-1203 | sockets with disjoint ranges give a pool without repetition |
| `AppController.SortGroups` | simple_proc_ktimer/simple_proc.c:788-804 | the bubble sort yields a permutation of the four groups in order of utilisation, stable between equals |
| `AppController.PickDonor` | simple_proc_ktimer/simple_proc.c:806-816 | the group picked is the least utilised one other than the receiver with at least two cores, and if there is none the least utilised of all |
| `AppController.ShiftPassesCore` | simple_proc_ktimer/simple_proc.c:821-895 | each of the twelve branches takes one core from its donor, gives one to its receiver, changes no other size and no outer boundary |
| `AppController.RebalanceUnique` | simple_proc_ktimer/simple_proc.c:788-895 | the layout after a tick is determined by the layout and the readings: transfer if and only if the gap exceeds `T_CHANGE` |
| `AppController.TransferIff` | simple_proc_ktimer/simple_proc.c:818-895 | a socket changes if and only if some group with two cores or more is less utilised than some other group by more than `T_CHANGE` |
| `AppController.BusiestGains` | simple_proc_ktimer/simple_proc.c:788-895 | no size changes by more than one; the group that gains is one of the most utilised, the one that loses is one of the least utilised among those with two cores or more |
| `AppController.InvolvementFlag` | simple_proc_ktimer/simple_proc.c:897-899 | the network flag is set exactly when the network group is receiver or is picked to give |
| `AppController.Controller.Measure` | simple_proc_ktimer/simple_proc.c:734-780 | the averages and sizes of the four groups of a socket, with no division by zero |
| `AppController.Controller.Adjust` | simple_proc_ktimer/simple_proc.c:821-895 | the twelve branches move one core from `min` to `max` exactly when the gap exceeds `T_CHANGE`, and leave the other socket alone |
| `AppController.Controller.Tick` | simple_proc_ktimer/simple_proc.c:734-944 | a whole tick rebalances both sockets and spreads the network queues when the network group was involved |
| `AppController.RunKeepsSocket` | simple_proc_ktimer/simple_proc.c:734-924 | in every run each group keeps a core, the four sizes keep their sum, `app_end - blk_start` is constant, the outer boundaries stay, and block hints are never written |
| `AppController.NetHintsFollow` | simple_proc_ktimer/simple_proc.c:897-944 | after the first redistribution the network hints are always the round robin of the current network ranges |
| `AppController.NetLoadsBalanced` | simple_proc_ktimer/simple_proc.c:925-944 | and then no two network cores differ by more than one queue |
| `AppController.PartitionsIff` | simple_proc_ktimer/simple_proc.c:1192-1203 | a layout with non-empty groups is an exact disjoint partition if and only if `app_end` is `blk_start - 1` |
| `AppController.PartitionRun` | simple_proc_ktimer/simple_proc.c:821-895 | a run is at a partition of `net_start..blk_end` in all its states or in none |
| `AppController.CodedRunOverlaps` | simple_proc_ktimer/simple_proc.c:1192-1203 | from the coded layout `app_end` stays `blk_start + 1`, at most `blk_end + 1`, twelve cores are counted in ten, and the groups never form a partition |
| `AppController.ReadsInRange` | simple_proc_ktimer/simple_proc.c:744-775 | from the coded layout the measuring loops stay within the 20 readings if and only if the upper block group has at least two cores |
| `AppWitness.ReadingsCanRunPastTable` | simple_proc_ktimer/simple_proc.c:771-775 | from the coded layout two ticks suffice to reach `app_end == 20` with one block core left |
| `AppWitness.GroupsCanShrinkToOne` | simple_proc_ktimer/simple_proc.c:821-895 | from the coded layout five ticks suffice for the system-call and the application group to have one core each |
| `SingleController.Controller.Tick` | simple_proc_ktimer/simple_proc.c:293-370 | a tick takes the block or the network turn in alternation, moves its boundary under exactly the code's conditions and rewrites its hints only |
| `SingleController.RunKeepsBounds` | simple_proc_ktimer/simple_proc.c:309-370 | in every run both queue groups keep a core and `blk_start - net_end` stays at least 3; after the first block turn every block hint is in `blk_start-1..19`, and in `blk_start..19` right after each block turn |
| `SingleController.HintsExact` | simple_proc_ktimer/simple_proc.c:325-369 | from the second tick on network hints are the round robin of the current network group, and block hints are right after each block turn |
| `SingleController.TickMovesOneCore` | simple_proc_ktimer/simple_proc.c:309-370 | a boundary moves by at most one core; both move only when a network turn pushes a two-core system-call group up whole |
| `SingleController.BlkMovesIff` | simple_proc_ktimer/simple_proc.c:309-334 | exactly when the block boundary moves, and which way, in terms of the sums, averages and thresholds |
| `SingleController.NetMovesIff` | simple_proc_ktimer/simple_proc.c:335-370 | the same for the network boundary |
| `SingleController.HotGroupsKeepCores` | simple_proc_ktimer/simple_proc.c:309-370 | in every run, a group that is hot and busier than the system-call group never loses a core |
| `SocketControllers.Controller.CrossTick` | simple_proc_ktimer/simple_proc.c:373-560 | a CROSS tick adapts the number of sockets, moves one boundary per socket in use and spreads its queues over them; the stray reads of the first measuring pass, of the second and of the branch may all differ |
| `SocketControllers.Controller.PerTick` | simple_proc_ktimer/simple_proc.c:563-698 | a PER tick does so on both sockets |
| `SocketControllers.RunKeepsSound` | simple_proc_ktimer/simple_proc.c:392-654 | in every run of either mode, whatever the stray reads return, the boundaries keep their distances and one or two sockets are in use, so every divisor is positive |
| `SocketControllers.RunKeepsEnds` | simple_proc_ktimer/simple_proc.c:477-654 | no tick moves `net_start` or `blk_end` |
| `SocketControllers.BlkMovesIff` | simple_proc_ktimer/simple_proc.c:478-496 | in both modes, exactly when the block boundary of a socket moves, and which way: to grow, the tested average is above `T_HIGH`, the group is busier than the system-call group and the gap exceeds 3 |
| `SocketControllers.NetMovesIff` | simple_proc_ktimer/simple_proc.c:497-515 | the same for the network boundary |
| `SocketControllers.SocketsInUseIff` | simple_proc_ktimer/simple_proc.c:399-437 | exactly how many sockets CROSS uses next, from the averages and the stray reads |
| `SocketControllers.HotGroupsKeepCores` | simple_proc_ktimer/simple_proc.c:477-654 | in every run of either mode, whatever the stray reads return, a group that is hot and busier than the system-call group never loses a core |
| `SocketControllers.PerHintsExact` | simple_proc_ktimer/simple_proc.c:656-698 | in PER, from the second tick on, both hint sets are the round robin of the current ranges |
| `SocketControllers.CrossHintsExact` | simple_proc_ktimer/simple_proc.c:518-560 | in CROSS the hints written by a tick are the round robin over the sockets then in use, and from the second tick on the other kind's are the round robin of the current ranges of the sockets in use one tick earlier |
| `Dynamic.Fgets` | affinity.c:141-142 | reads up to and including the first newline, or eight characters |
| `Dynamic.Atoi` | affinity.c:143-144 | skips spaces, takes a sign and the digits that follow |
| `Dynamic.ReadValues` | affinity.c:140-196 | reads the given number of boundary values line by line |
| `Dynamic.ValueOfDecimal` | simple_proc_ktimer/simple_proc.c:998-1008 | `atoi` inverts `%d` for every integer |
| `Dynamic.ValueOfText` | affinity.c:143-144 | `atoi` skips any spaces, takes one sign, and reads the decimal digits up to the first other character |
| `Dynamic.RoundTrip` | affinity.c:140-196 | any list of values whose decimal forms have at most seven characters is read back as printed, and the text is used up |
| `Dynamic.InStepIff` | affinity.c:140-196 | the reader uses up the text if and only if every value has at most seven characters |
| `Dynamic.LongValueHidesNext` | affinity.c:141-144 | a value of eight characters makes the next read as 0 |
| `Dynamic.ShortIff` | affinity.c:141-144 | the values with at most seven characters are -999999 to 9999999 |
| `Affinity.SetCpuSingle` | affinity.c:202-221 | the SINGLE mask loops give the cores between the boundaries read; which thread gets which is `Affinity.SingleMaskMembers` |
| `Affinity.SetCpuCross` | affinity.c:223-244 | the CROSS loops give the union over the sockets in use, upper socket first; a number of sockets above two reads beyond the arrays, and any values may be there |
| `Affinity.SetCpuPer` | affinity.c:246-264 | the PER loops give the cores of the caller's socket, the file loop without the last |
| `Affinity.SetCpuApp` | affinity.c:267-287 | the APP loops do the same on the APP boundaries |
| `Affinity.ShowSockets` | simple_proc_ktimer/simple_proc.c:1015-1047 | the printing loop of CROSS and PER prints the four boundaries of each socket in order |
| `Affinity.PerPrints` | simple_proc_ktimer/simple_proc.c:1034-1049 | the text is the start and end of the network group and of the block group of the lower socket, then of the upper |
| `Affinity.AppPrints` | simple_proc_ktimer/simple_proc.c:1053-1071 | the APP text has the six boundaries of the lower socket, then of the upper |
| `Affinity.SingleMasksPartition` | affinity.c:202-221 | in every reachable state of SINGLE the queue cores, the network mask and the file mask, read back from the printed text, are non-empty, disjoint and together 10..19 |
| `Affinity.SingleMaskMembers` | affinity.c:202-221 | in every reachable state, through the text, a network thread gets the cores after `net_end` and before `blk_start`, a file thread those from `blk_start` to 19 |
| `Affinity.HintsMeetMasks` | affinity.c:202-221 | right after each block turn every block queue interrupts a core of the file mask; from the second tick on no network queue interrupts a core of either mask |
| `Affinity.CrossMasksPartition` | affinity.c:223-244 | in every reachable state of CROSS they partition the sockets in use, both masks non-empty |
| `Affinity.CrossMaskMembers` | affinity.c:223-244 | which cores a network thread and a file thread get in every reachable state of CROSS |
| `Affinity.PerMasksMissLastCore` | affinity.c:246-264 | in every reachable state of PER they cover each socket but for its last core, and the file mask is empty if and only if the block group has one core |
| `Affinity.PerMaskMembers` | affinity.c:246-264 | which cores they get in every reachable state of PER |
| `Affinity.IdlePerMaskIff` | affinity.c:258-263 | in every idle run of PER, whatever the stray reads return, the file mask of a socket is empty if and only if its block group has been asked for all its cores but one |
| `Affinity.IdlePerEmptiesFileMask` | affinity.c:258-263 | twelve idle ticks leave the upper socket's file mask empty in every run, and the lower one's whenever the stray reads stay at or below the threshold |
| `Affinity.IdleRunExists` | simple_proc_ktimer/simple_proc.c:615-698 | there are such runs, of any length, from any well-formed state |
| `Affinity.AppMasksIff` | affinity.c:267-287 | from the coded APP layout: the file mask misses the last core and is empty if and only if the block group has one; the network mask is the system-call group if and only if `app_start == blk_start`, and empty if and only if system-call and application group have one core each |
| `Affinity.AppMaskMembers` | affinity.c:267-287 | which cores they get in every state of APP from the coded layout |
| `Affinity.CodedNetMask` | affinity.c:274-278 | in the coded layout itself the network mask is not the system-call group |
| `Affinity.AppFileMaskCanBeEmpty` | affinity.c:281-286 | a run of two ticks from the coded layout leaves the upper socket's file mask empty |
| `Affinity.AppNetMaskCanBeEmpty` | affinity.c:274-278 | a run of five ticks leaves its network mask empty |

## Left out

- `errno`: the wrappers restore it inconsistently (`ld_preload.c:1113`, `ld_preload.c:1166`); results are return values only.
- The byte layout of the request and reply records, and the memory behind pointer arguments.
- `dlsym` set-up, logging, `print.c`, procfs and timer registration, module boilerplate.
- `fork`, `clone` and `fdtable_forked`; `ku_select` and `stat_syscall`, which no modelled wrapper reaches.
- `set_cpu_app`, which sets a mask bit from a loop index, and the `/proc/<pid>/stat` readers.
- `sched_setaffinity` and `pthread_setaffinity_np` themselves: the model ends at the mask. The PER and APP code of `affinity.c` and the CROSS file loop contain misspelt or stray tokens; the model takes the evident reading.
- The service loop's exit on a failed `openat` request, which no wrapper sends.
- Failures of `calloc` and `pthread_create`, and overflow of the `int` sums of percentages.
- The body of the dead APP block redistribution loop, beyond the proof that its flag is never set.
- `fgets` at the end of the file, which leaves its buffer as it was.
- The concurrent model treats each table operation as one step: the service thread's unlocked start-up lookup (`ld_preload.c:188-196`) and the additions that `accept` and `epoll_create` make under a read lock (`ld_preload.c:1237`, `ld_preload.c:1587`). Node addresses are never reused in it.
- `Preload.Shim.Dismiss`: the handshake and join that end the service thread are in the concurrent model; here the thread simply goes with its entry.
- `Preload.Shim.Forward`: `poll` with no elements, whose wrapper reads before the array, is not distinguished from a lookup of some descriptor.
- `Percent.ReportIsConsistent`: stated for monotone counters whose interval fits in a word together with a hundred times its idle part, because larger idle intervals wrap in the code.
- `FdTable.Table.Delete`: freeing the node is not modelled; it is unlinked and its links are null.
