# OmochaOS: verified core

A Dafny model of the four components of the OmochaOS micro-kernel that carry its hardest
promises, and of four smaller algorithms, with proofs of what each promises. Code that
changes things in place is modelled as classes whose methods do the same writes in the
same order; each method is proved against a specification on values, and the theorems are
about that specification.

| component | specification and theorems | in place |
|---|---|---|
| copy-on-write address spaces | `CowSpec`, `CowShare`, `CowFault`, `CowStore`, `CowExit`, `CowLoad`, `CowRuns`, `CowLeaks`, `CowStoreLeak`, `CowBytes` | `Cow` |
| rendezvous message passing | `IpcGraph`, `IpcSpec`, `IpcRuns`, `IpcPending`, `IpcEffects` | `Ipc` |
| buddy page allocator | `BuddySpec`, `BuddyLinks`, `Words` | `Buddy` |
| red-black tree | `RbShape`, `RbShort`, `RbDelete`, `RbSearch`, `RbBalance`, `RbHeap` | `RbTree` |
| page mapping, scheduler, FAT32 reading, division | | `Paging`, `Scheduler`, `Fat`, `Divide` |

`Common`, `Pages` and `Arithmetic` hold what several of them share.

Check everything with `dafny verify dfyconfig.toml`.

## What the proofs rest on

* **Address spaces.** A frame is a number; `data`, `tables` and `dirs` say what is in it. A
  process has the stack and image ranges of its record and no other user mapping. The stack
  ends at a 4 MB boundary at or below the kernel (`src/kernel/modules/memory/fork.c:16-17`),
  and the image, free of holes, lies in lower 4 MB regions, with the page table of
  `program_break` present (an image that ends exactly at a 4 MB boundary has none). The
  page allocator is any allocator that returns a frame not in use with count 1. The child's
  record is entered in the process table before the message is copied rather than after;
  nothing in between reads it. In the invariant the count of a table is an upper bound only,
  because exit and fork disagree about the table of `program_break`; `CowLeaks` says exactly
  where and by how much counts stray, and which tables are lost. A message of which the kernel
  counts a page that is not the process's is the case `CowStore.ForkExact` singles out; runs
  fork without one.
* **Messages.** A message lives at an address in its process's memory, so that a process that
  is not blocked may change its own messages between calls. Only a process the scheduler may
  pick makes a call. The model is of the debug build: `panic` and `assert` are steps that do
  not happen (`halted`). Without `__DEBUG__` the source compiles them away
  (`src/kernel/header/lib/stdlib.h:20-21`), and the call would go on. The process a message is
  sent to, or asked for from, is taken to be in the process table, or to be one of the two
  special values of a receive: the source indexes the table with the number unchecked
  (`src/kernel/core/syscall_impl.c:62`, `:188`). Any process may subscribe to any interrupt but 0
  and to any exception. The pending tables are shared by all subscribers, and the scan of a
  receive takes entry 0 for no entry: `IpcPending` says when a receive panics for that, and when
  it cannot. The call of the scheduler at the end of a blocking call is a step of its own.
* **Buddy allocator.** Pages are numbered from `memory_start`, which lies at a multiple of
  4 MB; NULL is -1. Writes through a NULL `next`, which go to address 0 in the source
  (`src/kernel/modules/memory/buddy.c:13`, `:18`, `:29`), are left out. A map bit is the
  exclusive or of the two buddies' being listed, turned around for a last top-order block
  without a buddy, since the top order is listed at the start without touching the map. A block
  that a split leaves on a free list keeps reference 1 on its lower half
  (`src/kernel/modules/memory/buddy.c:47-50`), so nothing is claimed about references of free
  pages after a run. `bsf` is the index of the lowest set bit.
* **Red-black tree.** The parent link and the colour, one word in the source, are two fields.
  The write of `src->parent` in `rb_transplant` is skipped for a NULL `src`. Where removal of
  a black leaf would read the children of a NULL sibling, the model stops with `fault`.
* **Mapping.** `map_pages` is covered for any address, size and alignment with no 4 MB entry
  in the range and a range that stops short of the last page of the address space (where the
  loop counter would wrap). Entries keep their present bit, write bit and frame; other
  attribute bits are not modelled.
* **Scheduler.** `hlt` changes no status. The status test hides two of the bits it names
  (`Scheduler.MaskHides`); the model keeps the code's test.
* **FAT32.** The disk is a function from sectors to 512 bytes and does not change during a
  read. The specification numbers clusters from 2 and the code from the root directory's
  cluster; `Fat.SectorsAgree` says on which volumes that is the same. File size,
  offset and size are any 32-bit numbers; the sums of the clip wrap as in the source.

## Model

| member | source | states |
|---|---|---|
| CowRuns.RunRefines | src/kernel/modules/memory/fork.c:11-80 | Copy-on-write refines eager copying: after any run of loads, forks, faulting stores and exits, every live process sees exactly what it would see on a machine whose fork copies every page, and the invariant, the kernel's mapping in every directory included, holds; `CowBytes.RunBytes` says it of bytes |
| CowRuns.StepRefines | src/kernel/modules/memory/fork.c:11-124 | Each single event, seen through the views of all live processes, is one step of the eager machine |
| CowRuns.Isolated | src/kernel/modules/memory/pagefault.c:12-58 | Whatever other processes do, fork off this one and store as they like, what this process sees stays as it was |
| CowRuns.CountsExact | src/kernel/modules/memory/pagefault.c:23-54 | In every reachable state a data page is counted once per live process that maps it, a table at least once per directory pointing to it, and a writable page has exactly one mapper |
| CowStore.ForkRefines | src/kernel/modules/memory/fork.c:11-80 | A fork keeps the invariant, gives the child its parent's view and changes nobody else's, for a waiting message whose counted pages the parent owns |
| CowStore.ForkExact | src/kernel/modules/memory/fork.c:49-61 | For a waiting message wholly in the parent's pages, fork keeps the invariant if and only if the message does not end exactly where the parent's pages end; there it copies a page that is not the parent's |
| CowStore.PagesCounted | src/kernel/modules/memory/fork.c:50-58 | The kernel counts the pages of a message right except for one that ends with its page, at offset 0xFE0, where it counts one too many |
| CowStore.StoreRefines | src/kernel/modules/memory/pagefault.c:12-58 | A store, with whatever fault it takes, keeps the invariant, changes that one byte in the storing process's view and nothing in any other view |
| CowStore.ResolveInv | src/kernel/modules/memory/pagefault.c:12-58 | After the fault the page is writable, the invariant holds and no view has changed, in each of the three cases |
| CowStore.WriteInv | src/kernel/modules/memory/pagefault.c:25-28 | A write through a writable entry reaches the view of the writing process only |
| CowExit.ExitRefines | src/kernel/modules/memory/exit.c:29-79 | Exit keeps the invariant and every other view, frees a data page exactly when no other live process maps it, and frees a table exactly when it drops the last reference counted; any other table's count falls by one exactly when exit drops it |
| CowExit.ExitLeaves | src/kernel/modules/memory/exit.c:29-79 | Frame by frame and table by table: exactly what exit frees, what it keeps, and the counts it leaves |
| CowExit.HitsMean | src/kernel/modules/memory/exit.c:33-73 | Exit drops a reference of a data frame exactly if the process maps it, and of a table exactly if its directory points to it and it is not the table of `program_break` |
| CowExit.DropPagesFacts | src/kernel/modules/memory/exit.c:33-40 | The page loop of exit drops one reference of each page in its range and changes no translation |
| CowExit.DropTablesFacts | src/kernel/modules/memory/exit.c:41-48 | The table loop of exit drops one reference of each table in its range and clears exactly those entries |
| CowShare.ShareFacts | src/kernel/modules/memory/fork.c:11-47 | The four sharing loops of fork together: which entries the new directory has, which pages lose the write bit, which counts rise and by how much |
| CowShare.SharePagesFacts | src/kernel/modules/memory/fork.c:26-32 | The page loop of fork: every page in range is read-only and counted once more, every translation stays |
| CowShare.ShareTablesFacts | src/kernel/modules/memory/fork.c:18-25 | The table loop of fork: exactly the entries in range are copied and their tables counted once more |
| CowShare.ForkedInv | src/kernel/modules/memory/fork.c:11-47 | After sharing, counts, sole writers and layouts are right with the child among the live processes |
| CowShare.ForkedWriters | src/kernel/modules/memory/fork.c:29-29 | No page the parent maps stays writable for anybody; every page still writable has a count of one |
| CowShare.ForkedViews | src/kernel/modules/memory/fork.c:11-47 | After sharing, child and parent have the same view |
| CowFault.PrivatizeInv | src/kernel/modules/memory/pagefault.c:29-53 | A private copy of a shared page in a shared table keeps the invariant and every view, and repoints that one page only |
| CowFault.CopyPageInv | src/kernel/modules/memory/pagefault.c:29-41 | A private copy of a shared page in an unshared table does so too |
| CowFault.MakeWritableInv | src/kernel/modules/memory/pagefault.c:25-28 | Setting the write bit in place for a sole mapper is safe even if the table is reachable from elsewhere |
| CowLoad.LoadRefines | src/kernel/modules/memory/memory_init.c:80-123 | Loading a program into fresh frames, for any stack and image layout, keeps the invariant, gives the process its own pages as its view and changes nobody else's; with exit before it, the memory side of `execve` |
| CowLeaks.TableStep | src/kernel/modules/memory/fork.c:11-80 | For every step and every table: whether the step leaves the table in use with nobody pointing to it, and by how much its count strays from its users; the count of a table strays only at an exit, by one, for the table of `program_break` |
| CowLeaks.ForkTables | src/kernel/modules/memory/fork.c:59-77 | A fork leaves a table without users exactly if the message counts two pages of one table, and then it is the copy made for the first page; no count strays |
| CowLeaks.StoreTables | src/kernel/modules/memory/pagefault.c:42-50 | A store leaves a table without users exactly if it faults on a shared page in a table that only this process points to and that is counted more than once |
| CowLeaks.ExitTables | src/kernel/modules/memory/exit.c:41-72 | An exit leaves a table without users exactly if only this process pointed to it and exit does not drop it or its count was above one |
| CowLeaks.ForkLossExact | src/kernel/modules/memory/fork.c:53-58 | A fork loses a table if and only if the message it is given counts two pages of one 4 MB region |
| CowLeaks.ExitLossExact | src/kernel/modules/memory/exit.c:65-72 | Where counts are exact, an exit loses a table if and only if the process has a table of `program_break` and nobody else points to it |
| CowLeaks.TablesCounted | src/kernel/modules/memory/exit.c:65-72 | Over every run from the start: a table off the slots of `program_break` is counted exactly once per process pointing to it, and if no message counts two pages of one table no such table is ever lost |
| CowLeaks.BreakTableLost | src/kernel/modules/memory/exit.c:65-72 | When the last user of the table of `program_break` exits, the table stays in use with its count and nobody pointing to it |
| CowLeaks.ExitLeak | src/kernel/modules/memory/memory_init.c:80-123 | On the first process, with two stack pages and an image, that happens |
| CowLeaks.ForkLeak | src/kernel/modules/memory/fork.c:53-77 | On the first process with a message across its two stack pages, a fork leaves a table with a count of zero and nobody pointing to it |
| CowLeaks.LimitLeak | src/kernel/modules/memory/fork.c:54-55 | On the first process with a message in the last 32 bytes of its stack, a fork breaks the invariant |
| CowStoreLeak.StrayRun | src/kernel/modules/memory/pagefault.c:42-50 | From any state in which a process alone uses the table of `program_break` for two pages of its own, two forks, the first child's exit and a store by the second child lead to a state in which the process's own store on the second page loses the table |
| CowStoreLeak.StoreLeak | src/kernel/modules/memory/pagefault.c:42-50 | Such a run from the empty machine: the first process's store leaves its image table in use, counted, with nobody pointing to it |
| CowBytes.BytesOwned | src/kernel/modules/memory/fork.c:15-47 | The page of every byte of stack and image is among those fork shares and exit drops, and its table among the tables, for images and stacks at any byte address |
| CowBytes.PagesUsed | src/kernel/modules/memory/fork.c:26-47 | Conversely every page fork shares holds such a byte, if the image is not empty |
| CowBytes.TablesUsed | src/kernel/modules/memory/fork.c:18-40 | And every table fork shares is that of such a byte or of `program_break` |
| CowBytes.Walked | src/kernel/header/core/paging.h:27-36 | For every byte of stack and image of every live process the ten-bit entries of directory and table lead to a frame in use, and what is in it there is what the process sees |
| CowBytes.KernelThere | src/kernel/modules/memory/paging.c:121-122 | The directory of every live process maps 4 MB from physical address 0 at entry 512, and holds nothing else but the tables of its process |
| CowBytes.LoadBytes | src/kernel/modules/memory/memory_init.c:80-123 | A loaded program finds each byte in the frame its page went to, writable exactly if its page is |
| CowBytes.StoreBytes | src/kernel/modules/memory/pagefault.c:12-58 | After a store, byte by byte: the storing process reads the new byte at that address, and every other byte of every process is as it was |
| CowBytes.ForkBytes | src/kernel/modules/memory/fork.c:11-80 | After a fork parent and child read the same at every byte of stack and image, and the parent's entry for none of them is writable |
| CowBytes.RunBytes | src/kernel/modules/memory/fork.c:11-124 | In every state a run reaches, every byte of stack and image of every live process is mapped and is what it would be if every fork had copied every byte; the kernel's 4 MB are mapped |
| CowBytes.WritableAlone | src/kernel/modules/memory/pagefault.c:25-28 | A frame that one process may write is mapped by no other process and for no other page |
| Cow.Memory.ForkProc | src/kernel/modules/memory/fork.c:83-124 | The loops over address ranges carry out the specified fork, for a message whose counted pages the parent owns; the new state, invariant and views follow |
| Cow.Memory.CopyParent | src/kernel/modules/memory/fork.c:11-47 | Sharing stack and image into a new directory |
| Cow.Memory.CopyMessage | src/kernel/modules/memory/fork.c:49-77 | Every page of the waiting message becomes the child's own |
| Cow.Memory.CopyMessagePage | src/kernel/modules/memory/fork.c:60-76 | One message page and its table copied, counts moved |
| Cow.Memory.ShareTableRange | src/kernel/modules/memory/fork.c:18-25 | The table-sharing loop equals its specification |
| Cow.Memory.SharePageRange | src/kernel/modules/memory/fork.c:26-32 | The page-sharing loop equals its specification |
| Cow.Memory.CreatePageDir | src/kernel/modules/memory/paging.c:103-131 | A new directory has 1024 entries: physical address 0, present and 4 MB, at entry 512, and nothing anywhere else; its count is one |
| Cow.Memory.DoPageFault | src/kernel/modules/memory/pagefault.c:12-58 | The handler resolves the fault as specified; a mapped page never has a count below one, so the panic is out of reach |
| Cow.Memory.CopyFault | src/kernel/modules/memory/pagefault.c:29-53 | The two copying cases of the handler |
| Cow.Memory.StoreByte | src/kernel/modules/memory/pagefault.c:12-58 | A hardware store with its fault: the whole effect on every view |
| Cow.Memory.FreeProc | src/kernel/modules/memory/exit.c:29-79 | The loops of exit carry out the specified exit |
| Cow.Memory.DropPageRange | src/kernel/modules/memory/exit.c:33-40 | The page-dropping loop equals its specification |
| Cow.Memory.DropTableRange | src/kernel/modules/memory/exit.c:41-48 | The table-dropping loop equals its specification |
| Cow.Memory.DropFrame | src/kernel/modules/memory/paging.h:45-47 | Decrement, and free at zero |
| IpcRuns.RunInv | src/kernel/core/syscall_impl.c:57-244 | The invariant holds in every state reached by sends, receives, interrupts, faults, subscriptions and the processes' own work |
| IpcRuns.StepInv | src/kernel/core/syscall_impl.c:57-244 | Every step keeps the invariant |
| IpcRuns.NoDeadlock | src/kernel/core/syscall_impl.c:66-97 | In every reachable state no chain of senders closes, no process is both sending and receiving, and nobody is sending to a process that would take the message |
| IpcRuns.QueuesExact | src/kernel/core/syscall_impl.c:88-98 | In every reachable state each queue lists exactly the processes sending to its owner, each once, in send order |
| IpcRuns.Conservation | src/kernel/core/syscall_impl.c:223-232 | In every reachable state each message sent was delivered once or waits with its sender, never both |
| IpcRuns.DeliveredUnchanged | src/kernel/core/syscall_impl.c:71-83 | A step delivers at most one message, to its addressee, into the buffer of that receive or the one the addressee blocked with, unchanged but for the ready mark |
| IpcRuns.OldestFirst | src/kernel/core/syscall_impl.c:168-186 | Receiving from anyone, with no interrupt or exception announced, delivers the message sent first of all that wait for the receiver, and its sender goes on; if none waits, nothing is delivered and the receiver blocks |
| IpcRuns.DeadlockTestExact | src/kernel/core/syscall_impl.c:29-55 | Blocking on the receiver keeps the sending graph acyclic exactly when the chain from the receiver does not lead back |
| IpcRuns.SendInv | src/kernel/core/syscall_impl.c:57-103 | Send keeps the invariant |
| IpcRuns.RecvInv | src/kernel/core/syscall_impl.c:105-244 | Receive keeps the invariant, with a pending interrupt or exception taken first |
| IpcRuns.MeetInv | src/kernel/core/syscall_impl.c:171-241 | The rendezvous part of receive keeps the invariant |
| IpcRuns.InterruptInv | src/kernel/core/interrupt.c:48-66 | Interrupt delivery keeps the invariant, for every interrupt and whoever subscribes |
| IpcRuns.FaultInv | src/kernel/core/interrupt.c:147-170 | A fault, exception 0 included, which clears the status to its ERROR bit and tells the subscriber, keeps the invariant |
| IpcRuns.FreshInv | src/kernel/core/process.c:49-90 | Idle processes with nothing queued or pending satisfy the invariant |
| IpcPending.PanicExact | src/kernel/core/syscall_impl.c:143-160 | With one subscriber to interrupts and one to exceptions, a receive panics if and only if it takes interrupts, no interrupt is announced, an exception is, and exception 0 is the only one pending |
| IpcPending.NoPanic | src/kernel/core/syscall_impl.c:118-160 | In no run in which one process alone subscribes to interrupts, one alone to exceptions, and nobody to exception 0, does a receive panic |
| IpcPending.ZeroPanics | src/kernel/core/syscall_impl.c:149-160 | One subscription and one fault with exception 0 lead to a state in which the subscriber's next receive panics |
| IpcPending.TwoSubscribersPanic | src/kernel/core/syscall_impl.c:123-139 | With any two interrupts subscribed by two processes there is a run in which one takes the other's interrupt and the other's receive panics |
| IpcPending.TwoExcsRun | src/kernel/core/syscall_impl.c:149-167 | With any two exceptions above 0 subscribed by two processes there is a run in which one takes the other's exception and the other's receive panics |
| IpcPending.SubscriptionsExact | src/kernel/core/syscall_impl.c:118-167 | From a fresh machine whose subscriptions stay as they are, some run leads to a receive that panics if and only if somebody subscribes to exception 0, two processes to two interrupts, or two processes to two exceptions above 0 |
| IpcPending.ZeroStays | src/kernel/core/syscall_impl.c:149-167 | Exception 0, once pending, stays pending in every run: no receive takes it |
| IpcPending.TakenLeaves | src/kernel/core/syscall_impl.c:149-167 | Taking an exception clears the announcement exactly if no other entry after 0 is pending, even with entry 0 still pending |
| IpcGraph.NewEdge | src/kernel/core/syscall_impl.c:29-55 | A new edge keeps every chain finite exactly when its target does not reach its source |
| IpcGraph.AcyclicHasNoCycle | src/kernel/core/syscall_impl.c:31-53 | If every chain ends, no chain comes back to its start |
| IpcGraph.EdgeGone | src/kernel/core/syscall_impl.c:228-232 | Releasing a sender keeps every chain finite |
| Ipc.Kernel.IsDeadLock | src/kernel/core/syscall_impl.c:29-55 | The chain walk terminates and answers whether the chain from `dest` comes to `src` |
| Ipc.Kernel.SendMsg | src/kernel/core/syscall_impl.c:57-103 | The send over linked queues is the specified send; it halts exactly on a closed chain or on sending to oneself |
| Ipc.Kernel.RecvMsg | src/kernel/core/syscall_impl.c:105-244 | The receive over linked queues is the specified receive; it halts exactly on receiving from oneself and where an interrupt or exception is announced and no entry after 0 is pending; the panic for a missing sender is out of reach |
| Ipc.Kernel.Rendezvous | src/kernel/core/syscall_impl.c:171-241 | The end of receive, once nothing is pending |
| Ipc.Kernel.Append | src/kernel/core/syscall_impl.c:90-98 | Walking to the end of a queue and linking the sender there appends it |
| Ipc.Kernel.PopHead | src/kernel/core/syscall_impl.c:183-186 | Taking the head of a queue |
| Ipc.Kernel.Unlink | src/kernel/core/syscall_impl.c:193-217 | Taking a sender out of the middle of a queue, with its predecessor relinked |
| Ipc.Kernel.ScanInterrupts | src/kernel/core/syscall_impl.c:120-133 | The scan finds the first pending interrupt after entry 0 and whether another is pending |
| Ipc.Kernel.ScanExceptions | src/kernel/core/syscall_impl.c:145-160 | The same for exceptions, with their data |
| Ipc.Kernel.SendInterruptMsg | src/kernel/core/interrupt.c:48-66 | Interrupt delivery in place is the specified one |
| Ipc.Kernel.HandleIrq | src/kernel/core/interrupt.c:194-197 | An interrupt goes to its own subscriber, if it has one |
| Ipc.Kernel.SendExceptionMsg | src/kernel/core/interrupt.c:68-87 | Exception delivery in place is the specified one |
| Ipc.Kernel.FaultHandler | src/kernel/core/interrupt.c:147-157 | The fault path up to the call of the scheduler is the specified one, for every exception with a subscriber |
| Ipc.Kernel.RegIntMsg | src/kernel/modules/systask/systask.c:112-119 | A subscription to an interrupt, refused for interrupt 0, for a number too high and for a taken interrupt |
| Ipc.Kernel.RegExcMsg | src/kernel/modules/systask/systask.c:136-141 | A subscription to an exception, refused for a number too high and for a taken exception, but not for 0 |
| IpcEffects.SendReaches | src/kernel/core/syscall_impl.c:71-82 | A send whose receiver waits for it: the message, ready mark cleared, is in the receiver's buffer, RECEIVING is cleared and RUNNING set and no other bit changed, so that the receiver can run unless stopped or in error; the sender goes on; this message is delivered; nobody else, no queue and no pending entry changes |
| IpcEffects.SendWaits | src/kernel/core/syscall_impl.c:83-103 | Any other send: the sender has SENDING set, waits at the address it passed and is last in the receiver's queue; nothing is delivered and the receiver is as it was |
| IpcEffects.RecvNothing | src/kernel/core/syscall_impl.c:109-116 | Receiving from 0 names the receiver in the message and does nothing else |
| IpcEffects.RecvInterrupt | src/kernel/core/syscall_impl.c:118-141 | An announced interrupt: the message has the sender, kind and number of the least pending one after 0, which is pending no more; GOTINT is cleared exactly if none is left; nothing else changes |
| IpcEffects.RecvException | src/kernel/core/syscall_impl.c:143-169 | An announced exception, with its data, in the same way |
| IpcEffects.RecvTakes | src/kernel/core/syscall_impl.c:182-232 | A waiting message of the process asked for, or the first in the queue: copied as it is, its sender leaves the queue with SENDING cleared and RUNNING set and without a message, the receiver goes on; nothing else changes |
| IpcEffects.RecvWaits | src/kernel/core/syscall_impl.c:171-241 | Otherwise the receiver waits: RECEIVING set, RUNNING cleared, the message ready and naming whom it asks for; nothing else changes |
| IpcEffects.InterruptTold | src/kernel/core/interrupt.c:54-62 | A subscriber that waits for it gets the sender 0xFFFFFFFF, the kind 0x7FFFFFFF and the interrupt's number in its message and RECEIVING is cleared; the pending table and everybody else stay |
| IpcEffects.InterruptMarked | src/kernel/core/interrupt.c:63-65 | For any other subscriber GOTINT is set and the interrupt is pending; its message and everybody else stay |
| IpcEffects.InterruptUnheard | src/kernel/core/interrupt.c:194-197 | An interrupt without a subscriber changes nothing that is modelled |
| IpcEffects.ExceptionTold | src/kernel/core/interrupt.c:74-82 | The same of exceptions, with number and data |
| IpcEffects.ExceptionMarked | src/kernel/core/interrupt.c:84-86 | GOTEXC is set and the exception is pending with its data; the message stays |
| IpcEffects.FaultTells | src/kernel/core/interrupt.c:149-157 | A fault leaves the faulting process no bit but ERROR, and its memory; the subscriber is told |
| IpcEffects.RunnableIs | src/kernel/core/process.c:92-108 | Who may make a call is who the scheduler's test of the status word lets run |
| BuddySpec.Canonical | src/kernel/modules/memory/buddy.c:72-99 | Two states with the same free pages list the same blocks at every order |
| BuddySpec.RunsCanonical | src/kernel/modules/memory/buddy.c:41-99 | However two runs of requests got there, equal free pages mean equal free lists up to order |
| BuddySpec.PageByPage | src/kernel/modules/memory/buddy.c:72-99 | Freeing a block page by page, in any order, ends with the blocks that freeing it at once ends with |
| BuddySpec.AllocFreeRestores | src/kernel/modules/memory/buddy.c:41-99 | Allocating a block and freeing it at once restores every free list as a sequence, across all splits and merges |
| BuddySpec.AllocWhich | src/kernel/modules/memory/buddy.c:46-60 | The block allocated is the highest part of the head of the first list, from the order asked for up, that is not empty; each split leaves its lower half alone on its list; no other list changes |
| BuddySpec.FreeWhich | src/kernel/modules/memory/buddy.c:77-97 | The block is merged exactly as long as its buddy is listed, each buddy leaves its list, and the result is first on its own; no other list changes |
| BuddyLinks.ShlIs | src/kernel/modules/memory/buddy.c:55-55 | Block i of order k starts at page i * 2^k; the blocks of order 0 to 10 have 1 to 1024 pages |
| Buddy.MemoryInfo.AllocateThenFree | src/kernel/modules/memory/buddy.c:41-99 | In place, allocating a block and freeing it at once restores every list, every list head, every count and every map bit, those of the top order too |
| BuddySpec.FreeExact | src/kernel/modules/memory/buddy.c:75-99 | Over the whole range the code lets through, `usable_end` included, freeing keeps the invariant exactly for the blocks below it |
| BuddySpec.AllocSound | src/kernel/modules/memory/buddy.c:41-70 | Allocation keeps the invariant, fails exactly when nothing large enough is free, and takes exactly the returned block, all of it free before |
| BuddySpec.FreeSound | src/kernel/modules/memory/buddy.c:72-99 | Freeing keeps the invariant and adds exactly that block to the free pages |
| BuddySpec.ListedIffMaximal | src/kernel/modules/memory/buddy.c:72-99 | A block is listed exactly if all of it is free and not all of its parent is |
| BuddySpec.AllFreeIsCovered | src/kernel/modules/memory/buddy.c:72-99 | A block all of whose pages are free lies inside a listed block |
| BuddySpec.RunSound | src/kernel/modules/memory/buddy.c:41-99 | Any run of allocations and of frees of blocks that are out keeps the invariant |
| BuddySpec.ServeSound | src/kernel/modules/memory/buddy.c:41-99 | A request changes exactly the pages it should |
| BuddyLinks.DetachChains | src/kernel/modules/memory/buddy.c:9-23 | Unlinking a block keeps every free list well linked in both directions |
| BuddyLinks.AttachChains | src/kernel/modules/memory/buddy.c:25-33 | Linking a block in at the head does so too |
| BuddyLinks.DistinctPages | src/kernel/modules/memory/buddy.c:9-33 | Listed blocks start at different pages, so that links in free pages never clash |
| Buddy.MemoryInfo.constructor | src/kernel/modules/memory/memory_init.c:130-184 | Initialisation establishes the invariant with every page free, each map bit, top order included, saying what the lists say |
| Buddy.MemoryInfo.RemoveFromFreeList | src/kernel/modules/memory/buddy.c:9-23 | The link writes of a removal |
| Buddy.MemoryInfo.AttachToFreeList | src/kernel/modules/memory/buddy.c:25-33 | The link writes of an insertion |
| Buddy.MemoryInfo.XorBuddyMap | src/kernel/header/lib/bitset.h:16-22 | Flips one bit of the order's map and returns it |
| Buddy.MemoryInfo.AllocatePagesOfPower2 | src/kernel/modules/memory/buddy.c:41-70 | The recursive allocation in place is the specified one; all is unchanged on NULL; the pages of the block get the attribute and reference 1, pages in use keep theirs |
| Buddy.MemoryInfo.FreePagesOfPower2 | src/kernel/modules/memory/buddy.c:72-99 | The recursive free in place is the specified one, with its two error codes; freed pages get reference 0, pages in use keep theirs |
| Buddy.MemoryInfo.PageAlloc | src/kernel/modules/memory/buddy.c:114-117 | NULL with nothing changed exactly when no block of the least sufficient order or larger is free; otherwise an aligned block, all of it free before, and no other page changes hands |
| Buddy.MemoryInfo.PageFree | src/kernel/modules/memory/buddy.c:118-121 | Gives back the block that was allocated for that many pages |
| Words.PageOrderLeast | src/kernel/modules/memory/buddy.h:17-31 | The order asked for is the least whose blocks hold the pages, on 32-bit words |
| Words.RoundDownGreatest | src/kernel/modules/memory/buddy.h:6-15 | The largest power of two not above the argument, on 32-bit words |
| Words.RoundUpOverflow | src/kernel/modules/memory/buddy.h:17-25 | Rounding up gives 0 exactly outside 1 to 2^31 |
| RbShape.InsertFixRedBlack | src/kernel/lib/rbtree.c:90-128 | Rebalancing after an insertion gives a red-black tree |
| RbShape.InsertFixInorder | src/kernel/lib/rbtree.c:90-128 | It keeps the in-order entries |
| RbShort.FixShortRedBlack | src/kernel/lib/rbtree.c:193-255 | Given a subtree one black node short in an otherwise balanced tree, the walk ends with a red-black tree |
| RbShort.FixShortInorder | src/kernel/lib/rbtree.c:193-255 | The walk keeps the in-order entries, on any tree |
| RbShort.FixFromUneven | src/kernel/lib/rbtree.c:193-255 | Started from an uneven subtree, the walk cannot even the tree out |
| RbShort.TurnKeepsReady | src/kernel/lib/rbtree.c:196-252 | Every turn finds its sibling and the nephew it needs, and moves nearer the root |
| RbDelete.RemovedRedBlack | src/kernel/lib/rbtree.c:257-287 | Removal from a red-black tree gives one if and only if the node is not a black leaf below the root and its successor is not a black leaf deeper than the right child |
| RbDelete.RemovedContents | src/kernel/lib/rbtree.c:257-287 | Removal takes exactly the removed entry out, in every case |
| RbDelete.TrueParentRedBlack | src/kernel/lib/rbtree.c:257-287 | With the moved-up child's own parent passed to the fixup, the result is always red-black |
| RbDelete.TrueParentContents | src/kernel/lib/rbtree.c:257-287 | And exactly the removed entry is gone |
| RbDelete.FaultsHappen | src/kernel/lib/rbtree.c:285-286 | A five-node red-black tree on which both excluded cases break the balance |
| RbBalance.HeightExact | src/kernel/lib/rbtree.c:90-128 | The black height of the invariant is the number of black nodes on every path from the root to a leaf |
| RbBalance.Balanced | src/kernel/lib/rbtree.c:21-31 | The longest path of a red-black tree has at most twice as many nodes as the binary logarithm of its size plus one |
| RbHeap.SuccPredInverse | src/kernel/lib/rbtree.c:161-191 | Successor and predecessor are inverse |
| RbTree.RedBlackTree.Detach | src/kernel/lib/rbtree.c:33-43 | Unhooks a node from its parent |
| RbTree.RedBlackTree.Transplant | src/kernel/lib/rbtree.c:45-54 | Puts one node in the place of another |
| RbTree.RedBlackTree.LeftRotate | src/kernel/lib/rbtree.c:56-71 | The links after a left rotation |
| RbTree.RedBlackTree.RightRotate | src/kernel/lib/rbtree.c:73-88 | The links after a right rotation |
| RbTree.RedBlackTree.LeftRotateAt | src/kernel/lib/rbtree.c:56-71 | On a represented tree, the rotated tree |
| RbTree.RedBlackTree.RightRotateAt | src/kernel/lib/rbtree.c:73-88 | On a represented tree, the rotated tree |
| RbTree.RedBlackTree.InsertFixup | src/kernel/lib/rbtree.c:90-128 | The loop carries out the insertion walk on trees |
| RbTree.RedBlackTree.HangByKey | src/kernel/lib/rbtree.c:130-156 | The new node goes where its key belongs, or the key is found |
| RbTree.RedBlackTree.Insert | src/kernel/lib/rbtree.c:130-159 | A valid tree with exactly the new entry added, or 1 and the tree unchanged on a duplicate |
| RbTree.RedBlackTree.RemoveFixup | src/kernel/lib/rbtree.c:193-255 | The loop carries out the removal walk on trees, told whether the code would follow a NULL sibling |
| RbTree.RedBlackTree.Remove | src/kernel/lib/rbtree.c:257-287 | Exactly the removed node leaves, search order and links stay right, and the tree is red-black exactly outside the two cases |
| RbTree.RedBlackTree.Succ | src/kernel/lib/rbtree.c:161-175 | The next node in order |
| RbTree.RedBlackTree.Pred | src/kernel/lib/rbtree.c:177-191 | The previous node in order |
| RbTree.RedBlackTree.Search | src/kernel/lib/rbtree.c:21-31 | NULL exactly when no node has the key |
| RbTree.RedBlackTree.SearchUpper | src/kernel/modules/memory/kmem.c:126-144 | The least key at or above the one asked for |
| Paging.PageDir.MapPages | src/kernel/modules/memory/paging.c:38-58 | Every page of the range, rounded down as the code does, that was not mapped is mapped to its frame; every other translation stays, by table or by 4 MB entry, also when memory runs out half-way, and the directory changes only by new tables in the range; it fails only at a page whose region has no table; any alignment |
| Paging.PageDir.MapPage | src/kernel/modules/memory/paging.c:47-56 | One page mapped, or left as it was; the directory keeps every entry that was present |
| Paging.PageDir.CreatePageTable | src/kernel/modules/memory/paging.c:16-35 | A new, empty table changes no translation and takes an absent entry only; it fails only where there is none, and changes nothing then |
| Paging.BytesMapped | src/kernel/header/core/paging.h:27-36 | Every byte of a page mapped anew translates to its place in the physical range, counted from the two page starts, writable as asked |
| Paging.LastPageMapped | src/kernel/modules/memory/paging.c:40-41 | The pages of all bytes of the range are mapped if and only if the size fits behind the offset of the address in its page; else the last page is left out |
| Paging.BytesKept | src/kernel/header/core/paging.h:27-36 | Every address that was mapped, by a table or by a 4 MB entry such as the kernel's, is mapped still and translates as before |
| Paging.Translates | src/kernel/header/core/paging.h:27-36 | A mapped page translates byte by byte |
| Paging.LargeTranslates | src/kernel/header/core/paging.h:31-33 | A 4 MB entry translates by the low 22 bits; the kernel's takes 0x80000000 off an address |
| Scheduler.RunQueue.Schedule | src/kernel/core/process.c:97-109 | Picks the first process after the current one, in cyclic list order, that can run, and halts exactly if that is the current one |
| Scheduler.EverybodyRuns | src/kernel/core/process.c:97-109 | With statuses fixed, a process that can run is picked within as many calls as it is places ahead, a full round at most |
| Scheduler.MaskHides | src/kernel/core/process.c:92-108 | The test passes exactly if the status and 0xF0 have no bit in common, so that it never sees WAITING and HANGING |
| Fat.ReadFile | src/kernel/modules/fs/fs.c:367-410 | For any 32-bit file size, offset and size at which the search for the cluster ends: fills the buffer with what the code's clip says and nothing beyond it, following the cluster chain |
| Fat.ClipExact | src/kernel/modules/fs/fs.c:369-370 | The size the code reads is the part of the file the caller asked for if and only if the offset is not past the end of the file and offset plus size does not wrap |
| Fat.ClipWrong | src/kernel/modules/fs/fs.c:369-370 | In every other case it is more; with offset 10, size 2^32 - 1 and a file of 100 bytes it is 2^32 - 1 |
| Fat.SeekEnds | src/kernel/modules/fs/fs.c:374-376 | Where the cluster size divides 2^32, the search for the cluster ends if and only if the first multiple of the cluster size past the offset is below 2^32 |
| Fat.NextReads | src/kernel/modules/fs/fs.c:193-199 | Wherever the table starts and whatever it holds: the next cluster is the low 28 bits of the little-endian entry |
| Fat.ReadFromTable | src/kernel/modules/fs/fs.c:378-408 | Where a table links the file's clusters, byte by byte: the buffer gets the byte at that place of that cluster, in the sector the specification gives the cluster, if the offset is at a sector boundary or in the first sector of its cluster |
| Fat.ReadIsSlice | src/kernel/modules/fs/fs.c:378-387 | On a volume where the code's sector numbers are right, the bytes are the file's own if the offset is at a sector boundary or in the first sector of its cluster |
| Fat.ReadElsewhereWrong | src/kernel/modules/fs/fs.c:382-382 | At any other offset, for every cluster size and number of reserved sectors, there is a volume with a file, its chain in the table from first cluster to end mark, on which the first byte is wrong |
| Fat.SectorsAgree | src/kernel/modules/fs/fs.c:111-112 | The code's sector of a cluster is the specification's if and only if the root directory's distance from cluster 2, in sectors, is 0 modulo 2^32: for every cluster or for none |
| Fat.Seek | src/kernel/modules/fs/fs.c:374-377 | The cluster that holds the offset |
| Fat.GetNextClusInFAT | src/kernel/modules/fs/fs.c:193-199 | Returns the low 28 bits of the entry, for any table of 32-bit entries from any first sector on |
| Divide.Divide64By32 | src/kernel/driver/hpet.c:15-45 | Exact quotient and remainder, with both loops terminating and no intermediate value outside its machine type |

## Left out

- CowSpec.Share: does not model running out of memory; the source does not test for it in fork or in the fault handler.
- Cow.Memory.DoPageFault: does not model a fault at an address the process has no page for; the source does not handle it either; nor the clearing of the ERROR status after the copy.
- CowRuns.StepRefines: does not model `mem_sbrk`, which moves at most one page and may map into a shared table.
- CowLoad.LoadRefines: takes the loaded pages as given; reading the file, its program headers and the arguments `execve` copies are not modelled, nor two segments in one page or an image that ends exactly at a 4 MB boundary, for which the loader makes no table of `program_break`.
- Cow.Memory.ForkProc: asks for a message whose counted pages the parent owns; where that fails for a message of the parent's own (`CowStore.ForkExact`), what the machine does with the entry it overwrites is not modelled.
- CowRuns.CountsExact: does not model the translation cache; a page made read-only is read-only at once.
- Cow.Memory.FreeProc: does not model the record fields that exit clears besides the page directory, nor the reporting to the waiting parent, which reads the process slot after it was cleared.
- Ipc.Kernel.RecvMsg: asks for a sender in the process table or a special value, since the source indexes the table unchecked (`src/kernel/core/syscall_impl.c:188`); does not model creation and exit of processes: the table is fixed during a run.
- Ipc.Kernel.SendMsg: asks for a receiver in the process table, since the source indexes the table unchecked (`src/kernel/core/syscall_impl.c:62`); copies a message as one value; the walk through physical addresses is not tied to the address-space model.
- Ipc.Kernel.FaultHandler: returns where nobody subscribes; the source prints a report there and stops.
- Ipc.Kernel.RegIntMsg: does not model the message by which the system task is asked, nor that a refused request halts it; giving a subscription up is a step of the runs only.
- Ipc.Kernel.IsDeadLock: does not model the lines printed when a closed chain is found.
- Buddy.MemoryInfo.XorBuddyMap: models each order's map as a row of its own; the packing of the rows into words and bytes, disjoint only for some memory sizes, is not modelled.
- Buddy.MemoryInfo.constructor: starts from a usable range that is a whole number of top-order blocks; the computation of `usable_end` and the placing of the tables are not modelled.
- Buddy.MemoryInfo.FreePagesOfPower2: asks its caller not to pass `usable_end`, which the source's range test lets through and which breaks the invariant (`BuddySpec.FreeExact`).
- Buddy.MemoryInfo.PageFree: asks the same.
- RbTree.RedBlackTree.SearchUpper: adds the NULL test that the source lacks on its last comparison (`src/kernel/modules/memory/kmem.c:140`).
- RbTree.RedBlackTree.Remove: ends at the fault for a black leaf; what the machine would read from address 0 is not modelled.
- Scheduler.RunQueue.Schedule: does not model a round in which nobody can run, which the source waits out with interrupts on.
- Fat.ReadFile: asks for a buffer that takes what the code reads, and for an offset at which the search for the cluster ends (`Fat.SeekEnds`).
- The rest of the kernel heap (`kmem.c`): its pool arithmetic scales by node size and its free recurses without unlinking, so it has no invariant to keep.
- Driver sort, device registry, `find_first_unset_bit`: the property they suggest does not hold of them.
- Port input and output, interrupt controllers, disks, graphics, entry stubs and inline assembly: effects on hardware.
- Strings, formatting, the keyboard buffer, descriptor tables, ELF headers, 8.3 names and the virtual file system stubs: easy members.
