# JinxOS kernel, modelled in Dafny

JinxOS is a small x86 kernel for one CPU. This project models the parts of it that
carry invariants across many operations, and proves those invariants over every run.

| files | part of the kernel |
|---|---|
| `Basics` | names that several modules share |
| `Sizes`, `HeapModel`, `Allocator` | the heap allocator: first fit, an explicit free list inside the free blocks, boundary tags, splitting, two-sided coalescing, growth by pages, the in-place half of `krealloc` |
| `Scheduler`, `Kernel`, `Wakeups`, `Synch`, `Joining`, `KernelRuns` | threads, run queue, wait channels, semaphores, sleep locks, condition variables, fork, exit and join, as one step machine with its invariant |
| `KernelSteps`, `KernelHistory`, `Fairness` | what its runs come to, told of the actions and the threads that take them |
| `BlockingQueue`, `QueueRuns` | the blocking queue over its lock and condition variable, in finer steps, and its runs |
| `Interrupts` | the interrupt flag, spinlocks and the one static `iflag` they share |
| `ThreadList`, `LinkedList`, `ChannelRegistry` | the linked lists behind queues and chains, and the table of wait channels |
| `HashModel`, `HashTable` | the hash table that doubles and halves |
| `Bitmap`, `Paging`, `PageTable` | the page allocator's bitmap, two-level page tables, the regions of a process |
| `PidRegistrar`, `BinaryHeap`, `StabSearch` | process ids, the binary heap over a growable array, the debugger's search |

How the code appears here:

- The heap is an array of words. A word is split at its two low bits (`Word`), which is
  the bijection `WordRoundTrip` states. An address is a word offset from the heap's start.
  Two ghost values give the meaning: the set of offsets where a block starts and the
  free list as a sequence.
- The concurrent part is a step machine on values. A step of `Kernel` is what runs
  between two points where another thread can be dispatched; `Interrupts` shows why
  spinlock regions are such steps. In `BlockingQueue` the three pieces of a condition
  variable's wait and signal are separate steps and a preemption may come between them.
  A failing assertion of the code sets a fault flag, and the flag is proved to stay off.
- What a run comes to is stated of its actions (which thread called P, push or exit, with
  which value) and of what the callers got back. The machines record no calls for the
  proof; only the values given to `thread_exit` and read by `thread_join` are recorded, and
  `KernelHistory.Handshake` ties both to the actions.
- An empty run queue at a dispatch reaches `cpu_idle`, which panics: the machine halts.
- Objects that the code updates in place (heap, lists, hash table, bitmap, page tables,
  pid registrar, binary heap, spinlocks) are classes.
- 32-bit arithmetic is written out where it can wrap (`U32`).

Where a property does not hold of the code, the code is kept and the exact condition is
proved:

- `kmalloc` misbehaves when a size wraps at 2^32. `Sizes.ServedExactly` is the
  if-and-only-if, for a largest free block and a break; `Sizes.RequestsThatWrap` gives two
  wrapping requests.
- A blocking pop returns a NULL item without removing it and so can use up a wake-up. For a
  set of pushable values, every run is free of lost signals if and only if NULL is not in
  the set: `QueueRuns.ReliableIff`. `NullLosesSignal` is a whole run, `TakeKeepsIff` the
  condition for one take.
- Spinlocks inside spinlocks lose the caller's interrupt flag. `P` that slept, `V` that woke
  someone, the `cv` calls, and `wchan_create` and `proc_addthread` when their array grows
  (they call `kmalloc` under their spinlock) leave interrupts off; so does `thread_join` of
  oneself, whose error return skips `ifx`. `lock_acquire`, `lock_release`,
  `thread_join`, `thread_fork`, `thread_make_runnable`, `thread_yield` and a spinlock around
  straight code always give the flag back. `Interrupts.FlagAfter` says for each call exactly
  when, `Interrupts.GrowingLosesFlag` is the growing `wchan_create`.
- `page_insert` changes one translation only if no other slot shares the table, which
  holds below `UTOP`: `Paging.InsertIff`, `Paging.SharedSees`. It lets user mode into the
  kernel's part exactly if it fills an empty directory slot from `UTOP` on with the user bit:
  `PageTable.Vm.PageInsert`, `Paging.WalkedKernel`.
- `region_alloc` does not check that a region ends at `UTOP`. Wherever the region lies,
  processes stay in different frames; user mode gets into the kernel's part if and only if
  some page of the region from `UTOP` on has an empty directory slot:
  `PageTable.Vm.RegionAlloc`, and over whole runs `PageTable.Run`. `Paging.RegionOpens` is
  such a region.
- `pidreg_getpid` without an id to give answers EMPROC, which is the number of a process that
  exists, and keeps its lock. An answer is a free id if and only if one was available:
  `PidRegistrar.Registrar.GetPid`.
- `stab_binsearch` may stop at the entry after the right one if values `addr` and
  `addr + 1` both occur: `StabSearch.NextTakenToo`. Whether it does depends on the order of the
  probes (`StabSearch.NextPassed`). `StabSearch.ContainsIff` gives the exact condition, for
  all inputs, in terms of ordinary binary searches: for `addr`, and from the match on for
  `addr + 1`. At the largest address the exact match counts up to 0, and the search is right
  if and only if nothing is there: `StabSearch.TopWraps`.
- An empty region from `stab_binsearch` means that the address is in no entry, as the comment
  above it says, but not the other way round: the region is empty if and only if it has no
  entry of the kind at all (`StabSearch.EmptyIff`). `StabSearch.EmptyMeansIff` says exactly
  when a caller may take a nonempty region for a hit.

## Model

| member | source | states |
|---|---|---|
| `Sizes.ServedExactly` | mem/mm.c:130-154 | for every nonzero 32-bit size, largest free block and break: the request is served, or the kernel panics, without loss if and only if a free block is large enough or no sum on the way to the new break reaches 2^32 |
| `Sizes.RequestsThatWrap` | mem/mm.c:148-154 | one size gets the smallest block, another moves the break back to 0 |
| `Sizes.ValidSizeExact` | mem/mm.c:148-154 | without wrap, valid_size is a multiple of 4, at least 16, and covers the request and its header |
| `Sizes.GrowthExact` | mem/mem.c:29-39 | without wrap, the growth of the heap is a whole number of pages and panics exactly past the limit |
| `HeapModel.WordRoundTrip` | mem/mm.c:19-24 | size and tag bits of a word determine it and are determined by it, both directions |
| `HeapModel.InsertLinks` | mem/mm.c:71-78 | inserting at the head spells out the list with the block in front, although the head's prev link is never reset |
| `HeapModel.RemoveLinks` | mem/mm.c:81-92 | removing a block anywhere in the list spells out the list without it and writes only link words |
| `HeapModel.ReleaseFooted` | mem/mm.c:158-180 | footer and successor's PREV bit make a released block a well-formed free block, live payloads untouched |
| `HeapModel.JoinUnlisted` | mem/mm.c:95-127 | a run of free neighbours becomes one free block, and everything else keeps its tags and payloads |
| `HeapModel.ClaimWhole` | mem/mm.c:279-282 | claiming a whole block ends with the successor's PREV bit and restores the whole-heap invariant |
| `HeapModel.ClaimSplit` | mem/mm.c:276-278 | claiming the front of a block leaves the rest as a free block about to be released |
| `HeapModel.ExtendReleasing` | mem/mm.c:130-145 | new pages behind the epilogue become a free block whose PREV bit is the old epilogue's |
| `HeapModel.PayloadsDisjoint` | mem/mm.c:255-290 | two live blocks never share a word |
| `HeapModel.NothingLive` | mem/mm.c:293-305 | a well-formed heap with nothing in use is one free block of the heap size minus two words |
| `HeapModel.ClearedBytes` | mem/mm.c:255-290 | clearing the first k bytes of a word zeroes those bytes and keeps the others |
| `Allocator.Heap.constructor` | mem/mm.c:36-53 | init_mem and init_mm leave 32 pages, well formed, nothing in use |
| `Allocator.Heap.FindFreeBlock` | mem/mm.c:57-68 | the first listed block that is large enough; NULL only if every listed block is too small |
| `Allocator.Heap.InsertFreeBlock` | mem/mm.c:71-78 | the list with the block in front, only link words written |
| `Allocator.Heap.RemoveFreeBlock` | mem/mm.c:81-92 | the list without the block, only link words written |
| `Allocator.Heap.CoalesceFreeBlock` | mem/mm.c:95-127 | both loops absorb exactly the free neighbours, and the heap is well formed again |
| `Allocator.Heap.FreeBlock` | mem/mm.c:158-180 | freeing a block, or its tail beyond keepSize, keeps the heap invariant and every other live payload |
| `Allocator.Heap.IncreaseHeap` | mem/mm.c:130-145 | the heap grows by whole pages, stays well formed, keeps live payloads, and afterwards has a block that fits |
| `Allocator.Heap.Kmalloc` | mem/mm.c:255-290 | NULL exactly for size 0; a panic exactly if every listed block is too small and the new break would be too far; otherwise a fresh zeroed payload of at least the size, every other live payload untouched, and the break moves only if no listed block fits |
| `Allocator.Heap.Kfree` | mem/mm.c:293-305 | NULL and an already free block change nothing; otherwise exactly that block leaves the live set and no other live payload changes |
| `Allocator.Heap.CopyPayload` | mem/mm.c:183-198 | the ascending copy into a preceding, overlapping block moves the payload intact |
| `Allocator.Heap.MergeNext` | mem/mm.c:365-382 | growing into the next block keeps the invariant and the old payload |
| `Allocator.Heap.MergeBoth` | mem/mm.c:400-421 | growing into both neighbours moves the payload down intact and keeps the invariant |
| `Allocator.Heap.MergePrev` | mem/mm.c:424-443 | growing into the preceding block moves the payload down intact and keeps the invariant |
| `Allocator.Heap.Shrink` | mem/mm.c:338-348 | shrinking keeps the payload up to the new size and the invariant |
| `Allocator.Heap.KreallocInPlace` | mem/mm.c:318-443 | in place, the payload survives up to the smaller size and all others are untouched; otherwise the heap is unchanged, and the block is at the end of the heap or its free neighbours are too small |
| `Allocator.Heap.FreeAll` | mem/mm.c:293-305 | freeing all live blocks in any order leaves one free block of the heap size minus two words |
| `Allocator.Run` | mem/mm.c:36-305 | every run of requests from init_mm is served to its end or to a panic; the whole heap, in its 8 MB, stays well formed, its client sees payloads that behave as if each had memory of its own; a malloc is refused only if its size wraps, a panic means that no listed block fits and the break cannot move |
| `Allocator.Serve` | mem/mm.c:255-305 | one request, as the client sees it: a new zeroed payload, one changed word, or one payload gone; refused exactly if the size wraps, halted exactly if memory is exhausted |
| `Scheduler.DispatchConserves` | thread/thread.c:206-224 | dispatching the head of the run queue puts every thread in exactly one place again |
| `Scheduler.YieldConserves` | thread/thread.c:155-224 | a yield or timer tick conserves threads and destroys the zombies; with others ready, the first of them runs and the caller goes behind the last; alone, it runs on |
| `Scheduler.SleepConserves` | thread/thread.c:192-224 | going to sleep conserves threads: the caller is last on its channel and the head of the run queue runs |
| `Scheduler.WakeConserves` | synch/wchan.c:115-138 | waking conserves threads: the first sleeper goes to the end of the run queue |
| `Scheduler.WakeAllConserves` | synch/wchan.c:143-167 | waking all conserves threads: the channel is empty and its sleepers are at the end of the run queue, in order |
| `Scheduler.WakeAllWakes` | synch/wchan.c:143-167 | of all threads exactly the sleepers of the channel change, and they become ready |
| `Scheduler.LeaveConserves` | thread/thread.c:280-287 | a thread that leaves its process is the only zombie afterwards, the earlier ones are destroyed, and the head of the run queue runs |
| `Scheduler.SpawnConserves` | thread/thread.c:98-153 | a forked thread is new, on the run queue once and last, with a process |
| `Synch.VSynced` | synch/semaphore.c:80-91 | V loses no wake-up and wakes the longest sleeper, no other |
| `Synch.TakeSynced` | synch/semaphore.c:60-77 | a P that takes the count takes one and loses no wake-up, barging or woken |
| `Synch.BlockSynced` | synch/semaphore.c:60-74 | a P that goes to sleep loses none either |
| `Synch.AcquireSynced` | synch/lock.c:47-71 | lock_acquire keeps an owner exactly while the count is positive, and a waiter to test a free lock |
| `Synch.ReleaseSynced` | synch/lock.c:73-93 | lock_release keeps that, and wakes the longest sleeper exactly if the lock becomes free |
| `Synch.CvWaitSynced` | synch/cv.c:41-64 | cv_wait keeps them |
| `Synch.CvSignalSynced` | synch/cv.c:66-82 | cv_signal keeps them |
| `Synch.CvBroadcastSynced` | synch/cv.c:84-100 | cv_broadcast keeps them, and leaves nobody asleep on the channel |
| `Synch.CvWaitSleeps` | synch/cv.c:41-57 | cv_wait puts its caller last on the channel and runs the next thread, a waiter for the lock among those ready |
| `Synch.CvSignalWakes` | synch/cv.c:66-82 | cv_signal makes the longest sleeper of the channel ready, and only that one |
| `Synch.CvBroadcastWakes` | synch/cv.c:84-100 | cv_broadcast leaves nobody on the channel; its sleepers are ready and last on the run queue, in their order |
| `KernelRuns.ExitInv` | thread/thread.c:262-278 | thread_exit keeps the whole invariant, with or without a parent, and has stored its value |
| `KernelRuns.FinishJoinInv` | thread/thread.c:337-341 | the end of thread_join keeps the whole invariant and reads the exited value |
| `KernelRuns.FinishExitInv` | thread/thread.c:271-287 | destroying the two semaphores keeps the whole invariant; their channels are empty |
| `KernelRuns.StepInv` | thread/thread.c:98-346 | every step of every thread keeps the whole invariant and no assertion fails |
| `KernelHistory.SafeRuns` | thread/thread.c:155-346 | in every state of every run from boot: thread conservation and no failed assertion; every semaphore holds what it was made with, plus the calls of V, minus those of P that have returned; every thread holds a lock as often as it has called lock_acquire without lock_release, the call it is in apart; while anyone sleeps on a semaphore at least sem_count woken threads have yet to test; a free lock with sleepers has one of its waiters woken |
| `KernelHistory.JoinReturns` | thread/thread.c:325-346 | when thread_join returns, in any run, the value read is the one its child gave to thread_exit in that run; the child has not been joined before, exists at that moment and sleeps on csem |
| `KernelHistory.Handshake` | thread/thread.c:98-346 | in every state of every run: each joined value was given to thread_exit by that child; a thread calls thread_exit once and is then gone; each thread_join has its value or is still inside, and nothing is joined unasked; the child of each joinable fork is to be joined by its parent or has been; no semaphore outlives its thread |
| `KernelHistory.SemLaw` | synch/semaphore.c:46-91 | the law of the counts, from the making of the semaphore on |
| `KernelHistory.RunHolds` | synch/lock.c:47-93 | the law of the holds, for every thread and every lock |
| `KernelHistory.ReturnsOwning` | synch/cv.c:41-100 | lock_acquire, cv_wait, cv_signal and cv_broadcast return to an owner of the lock |
| `KernelHistory.ExitLaw` | thread/thread.c:262-290 | a thread_exit is its thread's only one, its value stays, and the thread does not come back |
| `KernelHistory.JoinLaw` | thread/thread.c:325-346 | a thread_join that was called has its value or is still inside |
| `KernelSteps.StepMoves` | thread/thread.c:98-346 | every action takes its caller where a table says and no other thread anywhere |
| `KernelSteps.StepRests` | thread/thread.c:155-224 | after every action but a yield: a caller that has not returned sleeps on the channel it is about, one that has ended is a zombie, one that has returned still runs |
| `KernelRuns.DestroyedForGood` | synch/semaphore.c:35-44 | once the two semaphores are destroyed nobody sleeps on them, is in P on them, or may still use them |
| `Fairness.StepAdvances` | thread/thread.c:180-224 | every step appends to the run queue or dispatches its head once, and a yield with others ready does |
| `Fairness.BoundedWaiting` | thread/thread.c:180-224 | the thread at position i of the run queue runs at exactly the (i+1)-th later dispatch, whatever else happens |
| `Fairness.GivesTurn` | thread/thread.c:180-224 | a thread that yields, sleeps or exits while others are ready is followed by the first of them |
| `Fairness.Served` | thread/thread.c:180-224 | when the CPU has been given up i + 1 times, the thread that was at position i of the run queue has run |
| `BlockingQueue.StepInv` | klib/queue_ts.c:40-76 | every fine step keeps the invariant as long as no NULL is pushed |
| `QueueRuns.SafeRuns` | klib/queue_ts.c:40-76 | in every state of every run without NULL items, also where everyone sleeps: the values that have entered are, in order, those returned to callers, the one in a caller's hand, and the queue; each thread's values entered in the order of its pushes; each thread has an answer for every pop it called but the one it is in, and a blocking pop never NULL; while a consumer sleeps the items are at most the woken consumers plus the pushers still to signal; a free lock with sleepers has one woken; once everyone sleeps no item is left and nobody is after the lock |
| `QueueRuns.StepLine` | klib/queue_ts.c:40-76 | one step: what enters goes behind the item in hand and the queue, what is answered comes off their front |
| `QueueRuns.TryTakes` | klib/queue_ts.c:51-62 | queue_ts_pop answers NULL exactly for the empty queue, else takes the front |
| `QueueRuns.SignalWakesOne` | synch/cv.c:66-82 | cv_signal wakes the longest sleeper and no other |
| `QueueRuns.ReleaseServes` | synch/lock.c:73-93 | lock_release wakes the longest sleeper, who then has yet to test the free lock |
| `QueueRuns.HaltsFree` | klib/queue_ts.c:64-76 | the queue's threads all sleep only when nobody is after the lock |
| `QueueRuns.NoSignalBetween` | synch/cv.c:41-57 | between a waiter's lock_release and its enqueueing on the channel no other thread takes a step |
| `QueueRuns.TakeKeepsIff` | klib/queue_ts.c:71-73 | when one take keeps the wake-ups accounted for, exactly, NULL items included; the front is what it goes on to return |
| `QueueRuns.ReliableIff` | klib/queue_ts.c:40-76 | no run of clients that push values of a set loses a signal if and only if NULL is not in the set |
| `QueueRuns.NullLosesSignal` | klib/queue_ts.c:64-76 | a run that ends with a queued NULL, a sleeping consumer and nobody to wake it |
| `Interrupts.StepTracks` | synch/spinlock.c:24-60 | one step of the interleaved machine is, for each thread, what it would see alone, although iflag is shared |
| `Interrupts.RunTracks` | synch/spinlock.c:24-60 | so is every run |
| `Interrupts.SafeRuns` | synch/spinlock.c:24-60 | in every state of every run of threads that start, call, fork, yield and exit: interrupts are off while any spinlock is held, no assertion fails, no spinlock is held at a switch, and while one is held neither a tick nor another thread can come |
| `Interrupts.FlagAfter` | synch/lock.c:47-93 | for each call, over any interleaving, exactly when the caller's interrupt flag comes back |
| `Interrupts.AcquireTakes` | synch/lock.c:47-71 | lock_acquire gives back the flag however often it slept |
| `Interrupts.ReleaseTakes` | synch/lock.c:73-93 | lock_release gives back the flag, also under another spinlock |
| `Interrupts.DownTakes` | synch/semaphore.c:46-78 | P gives back the flag exactly if it was off or P did not sleep |
| `Interrupts.UpTakes` | synch/semaphore.c:80-91 | V gives back the flag exactly if it was off or nobody was woken |
| `Interrupts.CvTakes` | synch/cv.c:41-100 | the cv calls leave interrupts off |
| `Interrupts.JoinTakes` | thread/thread.c:325-346 | thread_join gives back the flag |
| `Interrupts.SleepTakes` | synch/wchan.c:95-110 | a sleep switches with no spinlock held and comes back with its own |
| `Interrupts.RunnableTakes` | thread/thread.c:370-398 | thread_make_runnable gives back the flag |
| `Interrupts.YieldTakes` | thread/thread.c:155-224 | a yield gives back the flag, whatever zombies it destroys on the way |
| `Interrupts.ExitTakes` | thread/thread.c:262-290 | thread_exit, with its handshake, the end of its semaphores and the exorcism, comes to its last switch with no spinlock held and interrupts off |
| `Interrupts.ForkTakes` | thread/thread.c:98-153 | thread_fork gives back the flag, although its arrays may grow under their spinlocks |
| `Interrupts.BirthTakes` | thread/thread.c:235-250 | a new thread turns interrupts on with no spinlock held, after it has destroyed the zombies |
| `Interrupts.CriticalTakes` | synch/wchan.c:49-51 | a critical region gives back the flag exactly if it was off or no other spinlock is taken inside |
| `Interrupts.SimplesTake` | thread/thread.c:313-323 | with interrupts off, any sequence of lock, semaphore, heap and run queue calls leaves them off |
| `Interrupts.GrowingLosesFlag` | synch/wchan.c:38-60 | wchan_create gives back the flag exactly if its array does not grow; kmalloc gives it back |
| `Interrupts.SleepLosesFlag` | synch/semaphore.c:46-78 | P after one sleep has lost the flag, lock_acquire has not |
| `Interrupts.Cpu.constructor` | synch/spinlock.c:16-24 | spinlocks that nobody holds make a valid start, with interrupts off |
| `Interrupts.Cpu.SpinlockAcquire` | synch/spinlock.c:26-42 | does to flag, iflag and held spinlocks what the machine's step does; the loop never spins |
| `Interrupts.Cpu.SpinlockRelease` | synch/spinlock.c:44-60 | likewise |
| `Interrupts.Cpu.SoleHeld` | synch/wchan.c:101-105 | spinlock_held, and spinlocks equal to 1 with it, mean held and held alone |
| `ThreadList.InsertAfterNode` | thread/threadlist.c:66-80 | the four links spell out the list with the node after its neighbour |
| `ThreadList.InsertBeforeNode` | thread/threadlist.c:85-99 | the four links spell out the list with the node before its neighbour |
| `ThreadList.RemoveNode` | thread/threadlist.c:104-115 | the list without the node, whose own links are cleared |
| `ThreadList.List.AddHead` | thread/threadlist.c:120-127 | a sequence with a new front |
| `ThreadList.List.AddTail` | thread/threadlist.c:129-136 | a sequence with a new back |
| `ThreadList.List.RemHead` | thread/threadlist.c:138-152 | NULL exactly on the empty list, else the front and the rest |
| `ThreadList.List.RemTail` | thread/threadlist.c:154-168 | NULL exactly on the empty list, else the back and the rest |
| `ThreadList.List.InsertAfter` | thread/threadlist.c:170-175 | insertion behind a listed thread |
| `ThreadList.List.InsertBefore` | thread/threadlist.c:177-182 | insertion in front of a listed thread |
| `ThreadList.List.Remove` | thread/threadlist.c:184-189 | removal of a listed thread |
| `ThreadList.WakeAll` | synch/wchan.c:143-167 | the two loops move all sleepers, in order, to the tail of the run queue |
| `ChannelRegistry.Registry.Create` | synch/wchan.c:38-60 | a new channel, registered in the slot it names |
| `ChannelRegistry.Registry.Destroy` | synch/wchan.c:66-86 | the assertion on the slot holds, and exactly that channel leaves |
| `LinkedList.List.PushBack` | klib/list.c:59-80 | a sequence with a new back |
| `LinkedList.List.PopFront` | klib/list.c:82-99 | a sequence without its front; nothing on the empty list |
| `LinkedList.List.Front` | klib/list.c:101-112 | the front, or NULL on the empty list |
| `LinkedList.List.Find` | klib/list.c:114-127 | the first value the comparator accepts |
| `LinkedList.List.Remove` | klib/list.c:129-158 | the first value the comparator accepts leaves the list |
| `HashTable.ListSearch` | klib/list.c:114-127 | the list's search with the key comparator is the search of the chains |
| `HashTable.ListFind` | klib/hashtable.c:264-265 | list_find on a chain's list gives what the chain holds for the key |
| `HashTable.ListRemove` | klib/hashtable.c:327-328 | list_remove on a chain's list leaves the chain without the key |
| `HashTable.ComputeHash` | klib/hashtable.c:56-68 | the wrapping loop is djb2 over the integers, reduced once |
| `HashModel.Answer` | klib/hashtable.c:248-270 | what the chain of a key's hash holds for it is what the map holds |
| `HashModel.Put` | klib/hashtable.c:230-243 | taking a key out of its chain and appending it is a map update |
| `HashModel.Drop` | klib/hashtable.c:316-328 | taking a key out of its chain is a map removal |
| `HashModel.TakeFirst` | klib/hashtable.c:150-156 | the first pair of a chain leaves chain and map |
| `HashModel.CapacityPower` | klib/hashtable.c:168-199 | a capacity is 8 times a power of two |
| `HashModel.ShrinkLaw` | klib/hashtable.c:277-309 | halving and growing back at need comes to the capacity law |
| `HashTable.Table.Add` | klib/hashtable.c:213-246 | a map update; the array doubles exactly when twice the new size would exceed it |
| `HashTable.Table.Grow` | klib/hashtable.c:168-199 | the same map in twice the slots, with no growth inside |
| `HashTable.Table.Rehash` | klib/hashtable.c:137-161 | the same map in the new array, which grows in the middle at most once |
| `HashTable.Table.Find` | klib/hashtable.c:248-270 | the map's value, or NULL |
| `HashTable.Table.Shrink` | klib/hashtable.c:277-309 | the same map, in half the slots or, after a nested growth, in as many |
| `HashTable.Table.Remove` | klib/hashtable.c:311-346 | a map removal; the slots follow the capacity law, the wrap at no items left included |
| `HashTable.MayShrink` | klib/hashtable.c:337-338 | the wrapping test is: more than the minimum of slots and at least one item |
| `HashTable.Run` | klib/hashtable.c:109-346 | any sequence of adds, finds and removes on a new table gives a map's answers and the capacity law's slots |
| `Bitmap.Bits.constructor` | klib/bitmap.c:13-42 | the empty set, padding bits marked |
| `Bitmap.Bits.Alloc` | klib/bitmap.c:49-69 | the least clear index joins the set, never a padding bit; ENOSPC exactly on the full set |
| `Bitmap.Bits.Mark` | klib/bitmap.c:78-88 | one index joins the set |
| `Bitmap.Bits.Unmark` | klib/bitmap.c:90-100 | one index leaves the set |
| `Bitmap.Bits.IsSet` | klib/bitmap.c:103-112 | membership |
| `Bitmap.AllBits` | klib/bitmap.c:53-65 | a byte is 0xFF exactly if all its bits are set |
| `Paging.Split` | mem/vmm.h:116-122 | PDX and PTX split the page number; PDX below that of UTOP means an address below UTOP |
| `Paging.HangKeeps` | mem/vmm.c:35-42 | a fresh table in an empty slot changes no translation and is nobody else's |
| `Paging.InsertIff` | mem/vmm.c:12-28 | writing the entry of an unmapped page changes exactly that translation if and only if no other slot shares its table |
| `Paging.SharedSees` | mem/vmm.c:114-124 | through a shared slot, as above UTOP, the page shows in the other directory too |
| `Paging.PavedNext` | mem/vmm.c:12-62 | setting one more page of a run: other pages change only where a page of the run decides them, new slots are those of the run, and the kernel's part is opened exactly if one of its slots is new and gets the user bit |
| `Paging.ReachedShows` | proc/proc.c:87-104 | a page of any directory that shares an entry with the region shows that page's new frame |
| `Paging.RegionOpens` | proc/proc.c:87-104 | a region at UTOP in a directory without slots opens the kernel's part |
| `Paging.NoUserAbove` | mem/vmm.c:114-124 | while every present directory slot from UTOP on lacks the user bit, user mode has no page from UTOP on in any directory |
| `Paging.WalkedKernel` | mem/vmm.c:30-48 | a walk keeps that so if and only if it is below UTOP, finds the slot present, or asks for no user bit |
| `Paging.WalkedApart` | mem/vmm.c:12-48 | mapping a frame nobody uses keeps all user pages, and the page tables, in different frames |
| `PageTable.Vm.PpAlloc` | mem/pmm.c:45-54 | a frame that was free, zeroed |
| `PageTable.Vm.PgdirWalk` | mem/vmm.c:30-48 | the table and index that decide the address, a fresh table at need, no translation changed; a failure means that no frame is free |
| `PageTable.Vm.PageInsert` | mem/vmm.c:12-28 | below UTOP exactly one translation of one directory is new; in general that is so if and only if the table is not shared; present directory entries stay; a fresh frame keeps all user pages apart, wherever the address lies; user mode stays out of the kernel's slots if and only if the address is below UTOP, the slot was present, or the user bit is not asked for |
| `PageTable.Vm.BootMap` | mem/vmm.c:50-62 | a run of pages translates to the run of frames, both over the end of the address space at need; in any directory only pages that the run decides change, and no user page of another; from UTOP on frames stay apart; the kernel's slots stay closed if and only if the user bit is not asked for or the slots of the run were present |
| `PageTable.Vm.PgdirCreate` | mem/vmm.c:114-124 | a new directory translates nothing below UTOP and what the kernel's does above; tables stay private, frames apart, kernel slots closed |
| `PageTable.Vm.RegionAlloc` | proc/proc.c:87-104 | every page of the region, wherever it lies, gets a frame that was free, with the rights of its directory slot; in any directory only pages that the region decides change, below UTOP none but its own; no frame serves two user pages or a page and a table; user mode stays out of the kernel's slots if and only if the region's pages from UTOP on had theirs; a failure means that no frame is free |
| `PageTable.Vm.Serve` | mem/vmm.c:50-124 | one mapping of the kernel, new directory or region, anywhere, keeps processes apart and does what was asked, unless no frame is free; it opens the kernel's part exactly if it is a region with an empty slot from UTOP on |
| `PageTable.Run` | mem/vmm.c:50-124 | in every state of every run of such requests from an empty directory no two user pages share a frame, and user mode is out of the kernel's slots if and only if no request so far was a region with an empty slot from UTOP on; the run ends early only when no frame is free |
| `PidRegistrar.Registrar.GetPid` | proc/pidreg.c:90-108 | an id nobody holds, the longest returned first, if and only if one is available; otherwise EMPROC, which is in use, with the lock one deeper; marked are the counted ids minus the queue |
| `PidRegistrar.Registrar.PidUsed` | proc/pidreg.c:111-124 | true exactly for ids in use |
| `PidRegistrar.Registrar.ReturnPid` | proc/pidreg.c:127-137 | the id is free and queued once |
| `PidRegistrar.Registrar.AvailableIff` | proc/pidreg.c:75-84 | an id is available exactly if one of 1 to 1023 is not in use |
| `BinaryHeap.RootFirst` | klib/heap.c:59-72 | nothing precedes the root of an ordered heap |
| `BinaryHeap.RisingStep` | klib/heap.c:104-121 | a swap upwards keeps the order but for the swapped place |
| `BinaryHeap.SinkingStep` | klib/heap.c:123-156 | a swap with the first child keeps the order but for the swapped place |
| `BinaryHeap.Heap.BubbleUp` | klib/heap.c:104-121 | order restored, same items, and the loop ends |
| `BinaryHeap.Heap.TrickleDown` | klib/heap.c:123-156 | order restored, same items, and the loop ends |
| `BinaryHeap.Heap.Child` | klib/heap.c:132-147 | the branches pick a child that no child precedes, or none if none precedes the parent |
| `BinaryHeap.Heap.Push` | klib/heap.c:41-57 | the heap stays ordered and has one item more |
| `BinaryHeap.Heap.Pop` | klib/heap.c:59-72 | NULL exactly on the empty heap, else an item no other precedes, and the heap without it |
| `BinaryHeap.PopAll` | klib/heap.c:59-72 | popping to empty yields all items in order |
| `BinaryHeap.Array.SetSize` | klib/array.c:72-101 | what both sizes have in common stays; the room is 4 times a power of two |
| `BinaryHeap.Array.Add` | klib/array.c:23-36 | a sequence with a new back |
| `BinaryHeap.Array.Remove` | klib/array.c:103-113 | a sequence without one element |
| `StabSearch.RoundDecreases` | debug/debug.c:62-88 | the loop ends although an exact match may leave the interval as it is |
| `StabSearch.SearchFinds` | debug/debug.c:57-100 | the region the search ends with, as long as some value from addr to 2^32 - 1 does not occur |
| `StabSearch.ContainsIff` | debug/debug.c:57-100 | with some entry at or below addr: left is the last such entry and right just before the next or the old right end, if and only if a binary search finds no entry at addr, or finds one and, addr not being the largest address, another from there on finds none at addr + 1 (or, at 2^32 - 2, finds one just behind an entry at addr) |
| `StabSearch.FirstExactFinds` | debug/debug.c:62-88 | the rounds up to the first exact match find one exactly if the address occurs |
| `StabSearch.Contains` | debug/debug.c:57-100 | in particular it is so unless addr occurs together with addr + 1, or as the largest address |
| `StabSearch.NextTakenToo` | debug/debug.c:81-87 | two consecutive values, and the search stops at the second |
| `StabSearch.NextPassed` | debug/debug.c:81-87 | two consecutive values, and the search stops at the first |
| `StabSearch.TopWraps` | debug/debug.c:81-87 | at the largest address the search is right if and only if no entry has it; otherwise both ends are just before such an entry |
| `StabSearch.EmptyIff` | debug/debug.c:57-100 | the region ends empty if and only if it has no entry of the kind |
| `StabSearch.EmptyMeansIff` | debug/debug.c:47-100 | an empty region means that no entry is at or below addr if and only if some entry is, or the region has none of the kind |
| `StabSearch.StabBinsearch` | debug/debug.c:57-100 | the loops compute the search the lemmas are about |

## Left out

- `Allocator.Heap.KreallocInPlace`: not the paths that move the break (mem/mm.c:350-360, 384-395), which size the block to the unrounded request, nor the fallback (447-454), which allocates while it holds the heap's lock; NULL pointers and size 0 are kmalloc and kfree; sizes that wrap are excluded.
- `Allocator.Heap.Kmalloc`: requests whose sizes wrap and that no free block serves are excluded; `Sizes.ServedExactly` shows that the code loses exactly those.
- `Allocator.Heap.Kfree`: a pointer that never came from the heap, or whose block has been merged away, is not modelled.
- `Kernel`: threads, semaphores, locks and run queues are values of a step machine, not objects updated in place; thread ids are never reused, lk_count and tl_count do not overflow, and the arrays of threads that proc_addthread and proc_remthread keep are reduced to whether a thread has a process.
- `KernelRuns.StepInv`: clients keep to what the code asserts of them: existing objects, no V on a full semaphore, no release of a lock they do not hold, a join by the parent and once; thread_join of oneself (EDEADLK) does not occur then.
- `QueueRuns.SafeRuns`: runs in which a NULL is pushed are excluded; `QueueRuns.ReliableIff` shows that exactly these clients must be.
- `Interrupts.SafeRuns`: a call is the list of its flag and spinlock operations; how often it sleeps, wakes, or finds an array to grow or a zombie to destroy is arbitrary instead of computed. A switch may go to any thread, one not yet forked included. The creation of a registrar on first use is left out.
- `Scheduler.LeaveConserves`: the zombies are destroyed in one step. The code returns each stack under the page registrar's sleep lock (mem/pmm.c:167-174); a thread would sleep there, in thread_exit already without a process, if the lock's holder were preempted. No caller in the repository can be: they hold that lock with interrupts off (thread/thread.c:103, kern/kmain.c:97-99). `Interrupts.YieldTakes` and `Interrupts.ExitTakes` cover the spinlocks taken there.
- `Scheduler.YieldConserves`: the zombies are destroyed in one step, as in `Scheduler.LeaveConserves`.
- `HashTable.Table.Add`: needs fewer than 2^28 slots before it grows; a larger array and its lists do not fit a 32-bit address space, and kmalloc panics.
- `HashTable.Run`: keys are assumed no longer than their strings; the chains are sequences here, and `LinkedList.List` with `HashTable.ListFind` and `HashTable.ListRemove` shows that klib/list.c implements those.
- `BinaryHeap.Heap.Push`: at most 2^28 items, for the same reason as the hash table.
- `Bitmap.Bits.constructor`: sizes from 1 to 2^32 - 8; for 0 bits the code returns NULL.
- `PageTable.Vm.RegionAlloc`: the frames taken before a shortage, where the kernel panics, are not described.
- `PageTable.Vm.BootMap`: at most 2^32 - 4096 bytes; beyond that the loop's counter wraps and it does not end.
- `PidRegistrar.Registrar.GetPid`: the registrar's lock is a depth, as its owner sees it; who waits for it is not modelled.
- `StabSearch.SearchFinds`: tables in which every value from addr to 2^32 - 1 occurs, where the search may count over the end, are excluded; `StabSearch.ContainsIff` covers them.
- kpalloc, page_get and page_return, pp_free, pgdir_delete, and the scan of the memory map in init_pmm.
- Multiprocessor start-up, interprocessor interrupts, cpu_idle.
- Boot code, assembly, descriptor tables, ACPI, APIC, timer, serial line, screen, keyboard, console.
- printf, string routines, random numbers, timers, the test programs.
- bitmap_ts_isset_blocking, heap_assertvalid, thread_checkstack and the other diagnostics.
- Out-of-memory branches in the containers: kmalloc panics instead of returning NULL for a nonzero size.
