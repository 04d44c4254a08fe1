# Embedded Xinu in Dafny

A model of the hardest parts of Embedded Xinu, a small multicore kernel with its own C library,
and proofs about every input, every run and every interleaving of that model.  Verify it with
`dafny verify dfyconfig.toml`.

Code that updates memory step by step is imperative Dafny here too: classes with arrays, linked
tables and loops.  Each method is proved against a function or a relation on plain values, and
the laws are lemmas about those.

| file | what it models |
|---|---|
| `Types.dfy`, `Config.dfy`, `Bits.dfy` | shared types, build constants, bitwise operations on words |
| `Sv39.dfy`, `PageTables.dfy` | the page allocator and the Sv39 page tables; the hardware walk is the specification |
| `FreeLists.dfy`, `Heaps.dfy`, `Allocator.dfy` | `getmem` and `freemem`: lists as values, whole runs, and headers relinked in place |
| `Queues.dfy` | the queue table, doubly linked through one array |
| `Kernel.dfy` | processes, schedulers and messages as a state machine, one step per locked section |
| `KernelInv.dfy`, `KernelLife.dfy`, `KernelRuns.dfy` | what every step and every run keeps |
| `Accounts.dfy`, `Fairness.dfy`, `Messages.dfy` | memory accounting, no starvation, FIFO channels |
| `Effects.dfy` | what each step does to every field, and what it leaves alone |
| `Machines.dfy` | the system calls themselves, over arrays, queue table and heap |
| `Witnesses.dfy` | runs from boot into the states where a promise fails |
| `Spinlocks.dfy` | the lock instructions of ARM and RISC-V, interleaved |
| `Sorting.dfy` | `qsort` over raw bytes |
| `Numerals.dfy`, `Printing.dfy`, `Scanning.dfy` | integer conversions of `sprintf` and `sscanf` |
| `DeviceTree.dfy` | the flattened device tree walk |

How the kernel is cut into steps: a section of a system call that runs under a lock, or with
interrupts off, is one step, and steps of the four cores interleave freely; `create` and `kill`,
which take no lock, are one step each.  So `recv` is one
step up to the point where it gives up the lock, then possibly a `resched`, then a second step;
the call of `ready` after a lock is released is a step of its own.  `pc` in a process entry says
where between two sections a process stands.  Word widths are parameters (`w` for a `long`,
`sw` for a narrower integer).

What the code does that its comments do not say, each with the condition under which it happens and,
where that is not plain from the condition, an input or a run from boot that shows it:

- `mapAddress` rounds the length and truncates the address separately, so a request that starts
  inside a page may end on an unmapped one (`CoversRequest`, `UnalignedRequestIsCutShort`).
- `pgfree` of a page that is already free closes the free list into a ring (`PushIff`).
- `getmem` of a size within seven bytes of the word size wraps to zero and hands out a block that
  stays on the free list (`WrappedRequestStaysFree`).
- `freemem` adds in a word and looks at one list only: a range whose end wraps past a free block of
  its own region, or that runs into one of a later region, is accepted although it overlaps that
  block (`RefusalInHeap`, `WrappedRangeAccepted`, `RangePastRegion`).  What it accepts without
  wrapping keeps the heap sound if and only if it is an allocated block (`FreeKeepsIff`); what it
  accepts with its end wrapped never does, and may even shorten the block below (`WrappedSpelled`,
  `WrapKeepsNothing`, `WrappedShrinks`).
- `freemem` of a size within seven bytes of the word size frees nothing, yet links in a header
  without length; at the start of a free block that header points at itself, and a later `getmem`
  never ends (`NothingAtStart`, `NothingElsewhere`, `NeverEnds`).
- `sysinit` casts the share of a core to 32 bits (`ShareIff`); addresses behind the last share pass
  the bounds check of `freemem` and lie in no region (`NoRegionIff`).
- `create` cuts the size of a stack to 32 bits (`StackSizeIs`), keeps the stack when it finds no
  free process slot (`CreateAccountedIff`, `LeakReached`), stores its length in an `int`
  (`CreateBackedIff`, `MislayReached`), and on 32 bits makes a process of free memory when the size
  wraps in `getmem` (`CreateBackedIff`, `OvershootReached`, `OvershootKill`).
- `kill` keeps the tables whatever its target; but of a process that has still to ready another it
  leaves that one waiting until it is killed too (`KillKeepsIff`, `StrandedForGood`, `KillOfWaker`),
  and nothing else does so (`StrandsIff`).
- a process killed while it waits in a message queue, or while another is about to ready it, does no
  harm by itself, since `ready` refuses a free slot; but `create` may hand the slot out first.  Then
  the newcomer stands in the queue for the dead sender, whose message is gone, or `ready` indexes
  the ready lists with the core -1 of a new process (`CreateKeepsIff`, `StaleMember`, `StaleReady`,
  `KillOfSender`, `StaleReached`).
- a process that was created and never readied cannot be killed (`BlockedKill`).
- `recvnow` empties the slot without admitting a waiting sender; a later message then goes in front
  of the waiting one, and until then `recv` blocks with mail pending (`StepFlows`, `RecvBlocksIff`,
  `Overtaken`, `OvertakingReached`).
- `kill` leaves the mail of its target in place; `create` in that slot drops the message in it and
  takes over the waiting senders (`KillKeepsPending`, `CreateInherits`, `SuccessorReached`).
- `remove` of a process in no queue may take another out of one (`SparedIff`, `RemovedTwice`).
- `lock_release` does not look whose lock it is (`ReleaseIff`, `StrayClearIff`, `StrayUnlockIff`,
  `StrayRelease`).
- `%X` scans a `long` into whatever its argument points at (`BehindKeptIff`).
- a property that follows a subnode is reported without its node's name (`OwnNamesIff`, `NameLost`).

## Model

| member | source | states |
|---|---|---|
| Bits.AndMask | include/safemem.h:93 | masking with k ones is the remainder modulo 2^k |
| Bits.AndNotMask | include/memory.h:15-17 | masking with the complement of k ones takes off that remainder |
| Bits.OrFields | system/queue.c:155 | or-ing a shifted field with a narrower one is a sum of the two |
| Sv39.TruncPageIs | include/safemem.h:21 | truncpage is the start of the page an address lies in |
| Sv39.RoundPageIs | include/safemem.h:19 | roundpage is the least page multiple not below its argument |
| Sv39.PxIs | include/safemem.h:90-93 | PX picks the three 9-bit fields of the virtual page number |
| Sv39.PteRoundTrip | include/safemem.h:88-89 | PTE2PA undoes PA2PTE whatever the ten flag bits hold |
| Sv39.LeafPteIs | system/safeKmapInit.c:98 | the entry written has the page number and the attributes with V set, and nothing else |
| Sv39.AtLeafOfPte | system/safeKmapInit.c:98 | the hardware accepts that entry as a leaf for the page exactly if its attributes are those of a legal leaf |
| Sv39.WalkIsTreeWalk | system/safeKmapInit.c:104-121 | over tables that form a tree the hardware walk (RISC-V Privileged Architecture, section 4.3.2) is the plain three-level lookup, for every page number |
| Sv39.WriteLeaf | system/safeKmapInit.c:98 | writing a last-level entry changes the translation of that page alone and keeps the tree |
| Sv39.LinkMid | system/safeKmapInit.c:130-139 | hanging a zeroed page under the root keeps the tree and every translation |
| Sv39.LinkLow | system/safeKmapInit.c:130-139 | hanging a zeroed page under a middle table keeps the tree and every translation |
| PageTables.Paging.PgFree | system/safeInit.c:51-68 | a page-aligned page is zeroed but for the link to the old list and put in front, and the free list with it in front is what is left; a page already free leaves no free list at all; anything unaligned is refused and nothing changes |
| PageTables.PushIff | system/safeInit.c:58-64 | what pgfree leaves can be read as a list of distinct pages, by any list, if and only if the page was not already free |
| PageTables.Paging.PgFreeRange | system/safeInit.c:33-49 | a page is free afterwards if and only if it was, or starts at start or behind it and ends strictly below the bound, so that as many are added as there are of those, the highest first; no other page changes, and bad ranges change nothing |
| PageTables.Paging.PgAlloc | system/safeInit.c:70-88 | takes the first free page, zeroed; fails exactly when there is none |
| PageTables.Paging.Descend | system/safeKmapInit.c:128-141 | one level of the descent: no translation changes, pages are conserved, and it fails only with no page free and a table missing |
| PageTables.Paging.PgTraverseAndCreate | system/safeKmapInit.c:124-144 | arrives at the last-level word of the address, changing no translation and conserving pages |
| PageTables.Paging.NewRoot | system/safeKmapInit.c:12 | a fresh table under which every walk faults |
| PageTables.Paging.MapPage | system/safeKmapInit.c:48-66 | maps that page alone; fails exactly when the tables it lacks outnumber the free pages |
| PageTables.Paging.MapOne | system/safeKmapInit.c:88-98 | one page of mapAddress: mapped, or refused with every translation as before |
| PageTables.Paging.MapAddress | system/safeKmapInit.c:68-102 | succeeds exactly when the length is not zero and the tables missing under the range do not outnumber the free pages; then every page of the range translates to its physical page with attr and V, otherwise a prefix does; every other translation is unchanged, free and table pages stay disjoint and their union constant |
| PageTables.CoversRequest | system/safeKmapInit.c:81-83 | for every length: the mapped pages hold every byte asked for if and only if the offset in the first page still fits in the rounded length; a length within 4095 of the word size rounds to nothing, so the request succeeds and maps nothing |
| PageTables.UnalignedRequestIsCutShort | system/safeKmapInit.c:81-83 | two bytes at the end of a page: the second is not covered |
| FreeLists.Canonical | system/freemem.c:85-103 | an ordered list with gaps between neighbours is determined by the bytes it covers |
| FreeLists.TakeSpec | system/getmem.c:44-72 | taking a block leaves an ordered list that covers what it did less the block |
| FreeLists.TakeNone | system/getmem.c:46-76 | first fit fails exactly when no block is long enough |
| FreeLists.TakeTotal | system/getmem.c:51-64 | the sum of the lengths falls by what was taken |
| FreeLists.NeighboursSuffice | system/freemem.c:74-76 | comparing with two neighbours finds an overlap if and only if there is one with any block |
| FreeLists.RefusalIff | system/freemem.c:64-76 | in a word the test refuses exactly the ranges that overlap a free block, if and only if the end does not wrap with a free block above and the one below clear |
| FreeLists.WrappedRangeAccepted | system/freemem.c:74-76 | on 32 bits: 0xFFFFF000 bytes at 0x2000 overlap the block at 0x3000 and are accepted |
| FreeLists.WrappedShrinks | system/freemem.c:83-90 | on 32 bits: 0xFFFFF800 bytes freed right behind a free block of 0x1000 are accepted and leave it 0x800 |
| FreeLists.PutSpec | system/freemem.c:83-103 | putting back leaves an ordered, fully coalesced list that covers what it did and the range |
| FreeLists.PutTotal | system/freemem.c:83-103 | the sum of the lengths grows by what was put back |
| Heaps.RoundMbIs | include/memory.h:15 | roundmb is the least multiple of eight not below its argument, short of wrapping |
| Heaps.RoundMbWraps | include/memory.h:15 | within seven of the word size it is zero |
| Heaps.TruncMbIs | include/memory.h:17 | truncmb is the greatest multiple of eight not above its argument |
| Heaps.Determined | system/freemem.c:42-103 | lists and length fields are a function of the regions and of what is allocated |
| Heaps.InitialInv | system/initialize.c:94-104 | one block a core satisfies the heap invariant |
| Heaps.SplitOk | system/initialize.c:92-101 | the shares of the cores are aligned and disjoint |
| Heaps.AllFreed | system/initialize.c:94-104 | with nothing allocated each list is its one initial block |
| Heaps.GetKeeps | system/getmem.c:44-76 | getmem keeps the invariant (sorted, aligned, in region, coalesced, length field right, allocated blocks disjoint from free ones and each other), returns the lowest sufficient block and fails exactly when none exists |
| Heaps.RegionOf | system/freemem.c:43-50 | the search finds the core whose region holds the address, or the core count if none does |
| Heaps.FreeRefuses | system/freemem.c:56-81 | a range inside its region is refused by the test in words, with nothing changed, exactly when some byte of it is free |
| Heaps.RefusalInHeap | system/freemem.c:43-76 | in every sound heap with ascending regions, for every address of a region and every size: the test in words refuses exactly the ranges that overlap free memory of any region, if and only if it refuses or the range neither wraps past a free block of its region nor ends above the first free block of a later one |
| Heaps.RangePastRegion | system/freemem.c:43-76 | 24 bytes freed at the start of a region of 16: accepted, overlapping the next region, and the heap is broken |
| Heaps.PerCoreAscending | system/initialize.c:94-104 | the regions that sysinit makes are ascending |
| Heaps.FreeKeeps | system/freemem.c:42-103 | freeing an allocated block succeeds from any core and keeps the invariant |
| Heaps.FreeKeepsIff | system/freemem.c:83-103 | a free that is accepted and does not wrap keeps the heap sound if and only if the range is an allocated block |
| Heaps.WrapKeepsNothing | system/freemem.c:83-103 | the list that a range leaves which is accepted with its end wrapped belongs to no sound heap |
| Heaps.GetThenFree | system/getmem.c:46-71 | getmem followed by freemem restores the heap exactly |
| Heaps.FreeOrderIrrelevant | system/freemem.c:42-103 | freeing the same blocks in any two orders ends in the same heap |
| Heaps.RunKeeps | system/freemem.c:24-108 | every run of the two calls, on any cores, keeps the invariant |
| Heaps.RunsMeet | system/freemem.c:24-108 | two runs that end with the same blocks allocated end in the same heap |
| Heaps.WrappedRequestStaysFree | system/getmem.c:38-69 | a request that wraps is handed the first free block and the heap stays as it was, that block free |
| Allocator.FillHeads | system/initialize.c:94-104 | the loop of sysinit gives every core its head and one header, whatever the share |
| Allocator.ShareIff | system/initialize.c:97-98 | the share of a core survives the cast to 32 bits if and only if it is below 2^32 |
| Allocator.NoRegionIff | system/freemem.c:32-50 | an address that passes the bounds check lies in no region exactly from the end of the last share on |
| Allocator.Pool.constructor | system/initialize.c:92-104 | boot leaves heads and headers of equal shares, cast to 32 bits, which spell the initial heap unless the cast leaves nothing |
| Allocator.Pool.GetMem | system/getmem.c:24-77 | for every size: zero is refused; otherwise the walk along the headers computes first fit on values and the headers spell the new list; a size that wraps changes nothing |
| Allocator.Pool.Carve | system/getmem.c:48-69 | unlinking or splitting in place does to the headers what taking does to the list |
| Allocator.Pool.FreeMem | system/freemem.c:24-108 | for every size: refused, with nothing changed, if zero, out of bounds or by the test in words; otherwise linked in word by word, and if its end does not wrap this computes freeing on values; allocated blocks always go back |
| Allocator.NothingRefused | system/freemem.c:64-76 | a size that wraps to nothing is refused exactly inside a free block |
| Allocator.NothingAtStart | system/freemem.c:91-103 | freeing nothing at the start of a free block leaves it a header of length zero that points at itself, where every search for more than the blocks below hold is caught |
| Allocator.RingAtStart | system/freemem.c:91-103 | so does a range there whose end wraps: after any number of steps the walk stands on a block below or on that header |
| Allocator.NeverEnds | system/getmem.c:46-76 | after such a call, whatever headers spelled the heap, the loop of getmem finds no block and no end |
| Allocator.NothingBehind | system/freemem.c:85-90 | freeing nothing right behind a free block changes nothing |
| Allocator.NothingElsewhere | system/freemem.c:91-96 | anywhere else it links in an empty header, after which the block that starts there is refused |
| Allocator.Pool.HomeOf | system/freemem.c:43-50 | the loop over the regions computes RegionOf |
| Allocator.Pool.Walk | system/freemem.c:56-62 | the walk ends between the last free block below the address and the first that is not |
| Allocator.RelinkedSpells | system/freemem.c:83-103 | relinking in words a range that is clear of its neighbours and does not wrap spells what freeing leaves, length field included |
| Allocator.WrappedSpelled | system/freemem.c:83-103 | the headers after an accepted range that wraps: the block below with its length taken modulo the word, or a block of the full length |
| Allocator.Pool.Release | system/freemem.c:83-103 | the relinking half spells the list with the range put back, when its end does not wrap |
| Allocator.Pool.LinkBelow | system/freemem.c:85-96 | the range joins the block below or becomes one of its own, lengths added in a word |
| Allocator.Pool.LinkAbove | system/freemem.c:98-103 | that block swallows the one above if they touch, lengths added in a word |
| Queues.QidRoundTrip | include/queue.h:51-60 | queuehead and queuetail recover both halves of every queue id, and the id is good |
| Queues.QidIs | system/queue.c:145-155 | the id of the k-th queue is (50 + 2k) * 65536 + 51 + 2k |
| Queues.BadQueueIs | include/queue.h:60 | an id is bad exactly if its halves are not neighbours or the lower is 174 or more |
| Queues.EnqueueRefines | system/queue.c:34-37 | the four writes append to one sequence and leave every other queue as it was |
| Queues.EnqueueIff | system/queue.c:34-37 | the four writes append the process if and only if it was in no queue; in no case are the old sequences still spelled |
| Queues.RemoveRefines | system/queue.c:91-92 | joining the neighbours deletes the member, wherever it stands, and leaves every other queue as it was |
| Queues.SparedIff | system/queue.c:91-92 | removing a process changes no queue if and only if each of the two entries it writes is in no queue or holds already what is written |
| Queues.RemovedTwice | system/queue.c:91-92 | remove the last member, append another, remove the first again: the other is lost |
| Queues.MemberFindsHead | system/queue.c:65-81 | from the member at place i the walk comes to the head in i + 1 steps |
| Queues.SelfLinkLost | system/queue.c:68-87 | from an entry that points at itself, as dequeue leaves it, the walk never comes to a head |
| Queues.NewQueueRefines | system/queue.c:148-151 | a new queue is an empty sequence beside the others |
| Queues.WalkBack | system/queue.c:68-81 | prev leads from each member to the one before and from the first to the head; no queue is longer than NPROC |
| Queues.QueueTab.NewQueue | system/queue.c:140-156 | adds an empty queue and returns its id |
| Queues.QueueTab.Enqueue | system/queue.c:20-42 | refuses bad queues and processes with nothing changed; otherwise the table still spells its queues, with the process appended, if and only if it was in none |
| Queues.QueueTab.Dequeue | system/queue.c:104-134 | takes the first member, EMPTY when there is none |
| Queues.QueueTab.NonEmpty | include/queue.h:63 | tells whether the sequence is empty |
| Queues.QueueTab.FindHead | system/queue.c:65-87 | for any links that stay in the table: a head is found if and only if it is fewer than NQENT steps back |
| Queues.QueueTab.Remove | system/queue.c:55-97 | deletes a member from any place of its queue; for a process in no queue: refused if no head is found, and otherwise every queue is kept if and only if its old links spare them |
| Kernel.StackSizeIs | system/create.c:37-39 | for every size: the next multiple of four from the size or MINSTK, modulo 2^32, which is enough if and only if the size is below 2^32 - 3 |
| Kernel.IntKeepsLength | include/proc.h:70 | a length stored in an int and passed as an unsigned long is itself if and only if it is below 2^31 or a long has 32 bits |
| KernelInv.AgeKeeps | system/resched.c:31-63 | aging keeps the invariant and every process entry |
| KernelInv.RequeueKeeps | system/resched.c:65-70 | the current process is queued again only if still PRCURR, and then nothing on the core is |
| KernelInv.PickKeeps | system/resched.c:72-93 | the dispatched process is PRCURR, current and in no queue |
| KernelInv.ReschedKeeps | system/resched.c:18-100 | resched keeps the invariant, never dequeues EMPTY and leaves a PRCURR process of that core current |
| KernelInv.DepositKeeps | system/send.c:47-57 | filling a slot keeps the invariant and claims a wake-up only for a receiver that waits |
| KernelInv.SendBlockKeeps | system/send.c:37-42 | queuing behind a full slot keeps the invariant |
| KernelInv.RecvBlockKeeps | system/recv.c:25-28 | blocking on an empty slot keeps the invariant |
| KernelInv.CollectAdmitKeeps | system/recv.c:34-39 | admitting the first waiting sender keeps the invariant |
| KernelInv.WakeKeeps | system/recv.c:40 | readying the claimed process keeps the invariant: it was waiting and in no queue, or has been killed and ready refuses it |
| KernelInv.ReadyKeeps | system/ready.c:17-45 | ready on a suspended process keeps the invariant and makes it PRREADY |
| KernelLife.NewPidComplete | system/create.c:113-128 | newpid fails exactly when no slot is free |
| KernelLife.NewPidFree | system/create.c:113-128 | what newpid returns is a free slot |
| KernelLife.NewPidFirst | system/create.c:118-126 | it is the first free slot round from nextpid, which is left there |
| KernelLife.CreateSlot | system/create.c:41-47 | create succeeds if and only if the core has a long enough free block and newpid a slot, and returns that slot |
| KernelLife.CreateKeeps | system/create.c:27-107 | create keeps the invariant whether it succeeds or not, unless someone is still about to ready the slot or a message queue still has it |
| KernelLife.CreateKeepsIff | system/create.c:42-62 | create keeps the invariant if and only if nobody is still about to ready the slot that newpid finds and it is in no message queue |
| KernelLife.StaleReady | system/ready.c:27-35 | if somebody is, that ready finds the new process with core -1 and indexes no ready list |
| KernelLife.StaleMember | system/create.c:58-62 | if it is in a queue, the new process stands there for the dead sender, whose message is overwritten, and is readied with core -1 when its turn comes |
| KernelLife.WakeInRange | system/ready.c:23-35 | in every state that fits, a ready in progress is refused or indexes a ready list |
| KernelLife.DropAt | system/queue.c:91-92 | removing by process number takes out the one occurrence |
| KernelLife.KillKeepsIff | system/kill.c:18-59 | kill always keeps the invariant; where nobody is stranded it strands a process if and only if its target has a live one still to ready, namely that one; the free slot stays in a message queue if and only if the target waited in one |
| KernelLife.KillKeeps | system/kill.c:18-59 | kill keeps the invariant, whatever its target |
| KernelLife.KillStrands | system/kill.c:45-56 | those stranded after a kill are those before, but for its target, and the live process its target had still to ready |
| KernelLife.BlockedKill | system/kill.c:23-56 | by state: a process in PRRECV or PRSEND has nobody to ready, so its kill strands nobody, and one in PRSUSP is never killed, since its core is still -1 |
| KernelLife.TickKeeps | system/clkhandler.c:18-41 | the clock handler keeps the invariant |
| KernelRuns.BootedInv | system/initialize.c:106-178 | the state sysinit leaves satisfies the invariant |
| KernelRuns.BootedStrandsNobody | system/initialize.c:106-178 | and in it nobody is stranded |
| KernelRuns.StepKeeps | system/send.c:17-63 | every step of every system call keeps the invariant |
| KernelRuns.RunKeeps | system/resched.c:18-100 | the invariant holds in every state of every run, however the cores interleave |
| KernelRuns.Placement | system/ready.c:27-35 | PRREADY exactly when in a ready queue, one of the process's own core and no lower than its priority; PRSEND, if not stranded, exactly when alive in a message queue, but for wake-ups in progress; nothing twice in a queue or in two |
| KernelRuns.Quiet | system/resched.c:87-89 | with every core between calls and nobody stranded: PRSEND is being alive in a message queue, PRCURR is being current, and PRRECV is having no message |
| KernelRuns.AlwaysSchedules | system/resched.c:31-89 | in every state of every run each null process is current or ready on its core, counters are within 1..QUANTUM, and resched finds a process |
| KernelRuns.DispatchesHighest | system/resched.c:65-89 | resched runs the first process of the highest level that has one, the process that was current having queued behind the others of its priority |
| KernelRuns.ResumedHasMessage | system/recv.c:29-32 | a process that comes back from the resched in recv finds a message |
| KernelRuns.StepWakeUps | system/send.c:51-54 | each section claims a waiting process, readies a claimed one, is refused by ready because it was killed, kills the one that was to ready it, or does none of these |
| KernelRuns.WakeUpsBalance | system/recv.c:23-46 | along every run each claim is readied, refused or lost with its waker once, but for those still in progress: no other wake-up is lost and none is doubled |
| KernelRuns.NoLapse | system/ready.c:23 | and none is refused along a run in which the process is not killed |
| KernelRuns.StepMessages | system/send.c:37-42 | a step puts nobody in a message queue but the process that makes it, and frees a slot only by killing it |
| KernelRuns.StepStrands | system/kill.c:45-56 | a process is stranded after a step if and only if it was before and the step does not kill it, or the step kills the one about to ready it |
| KernelRuns.StrandedForGood | system/ready.c:23-35 | along every run a stranded process stays so, and never runs, until it is killed |
| KernelRuns.StrandsIff | system/kill.c:45-56 | along a run that starts with nobody stranded, nobody ever is if and only if no process with a live one still to ready is killed |
| Accounts.BootedAccounted | system/initialize.c:94-107 | the books are right at boot |
| Accounts.CreateAccountedIff | system/create.c:37-56 | for every size: create keeps the books if and only if, besides, it does not get a stack while every slot is taken |
| Accounts.CreateBackedIff | system/create.c:37-56 | for every size: create leaves every process an allocated stack of its own if and only if there is no block or no slot for it, or neither does the size wrap nor the length fail to survive the int |
| Accounts.KillBacked | system/kill.c:31-56 | kill of any process gives its stack back and counts it off, leaks or not |
| Accounts.StepBacked | system/kill.c:18-59 | every step but a create whose length does not survive keeps each process its own allocated stack, and the books unless a create leaks |
| Accounts.RunBacked | system/create.c:37-56 | over every run without such a create, leaks or not, each live user process has an allocated stack of its own and numproc counts the slots in use |
| Accounts.RunAccounted | system/create.c:37-56 | if none leaks either, the allocated blocks are exactly those stacks |
| Accounts.AllKilled | system/kill.c:35-43 | with no user process left, each free list is its initial block and numproc is four |
| Accounts.FromBoot | system/initialize.c:94-107 | the same from boot on: when all user processes are gone the heap is the one sysinit made |
| Fairness.RankBounds | system/resched.c:31-63 | a waiting process has a rank between 1 and 13 * NPROC |
| Fairness.ReschedRank | system/resched.c:31-89 | each resched on its core dispatches a waiting process or lowers its rank |
| Fairness.StepServes | system/ready.c:27-43 | no other step of any core raises it |
| Fairness.NoStarvation | system/resched.c:18-100 | a ready process that is not killed is dispatched within 13 * NPROC calls of resched on its core, whatever steps of a run come in between |
| Fairness.NoStarvationInTicks | system/clkhandler.c:34-40 | and within 13 * NPROC * QUANTUM clock ticks there |
| Fairness.TicksResched | system/clkhandler.c:34-40 | any QUANTUM ticks on a core bring at least one resched there |
| Fairness.ClockCounts | system/clkhandler.c:24-32 | along every run clktime and clkticks count the ticks of their core, a thousand to the second |
| Messages.SendFlows | system/send.c:37-60 | send puts its message at the end of the channel |
| Messages.SendNowFlows | system/sendnow.c:17-49 | so does sendnow when it accepts it |
| Messages.RecvFlows | system/recv.c:32-46 | recv takes the message at the front |
| Messages.RecvNowFlows | system/recvnow.c:15-33 | recvnow takes the slot |
| Messages.StepFlows | system/recv.c:16-49 | a step keeps the order of the messages to a process if and only if it neither puts one in an empty slot past a sender with a different one nor creates a process over an unread one; it loses none if and only if it does not do the latter |
| Messages.FifoIff | system/send.c:37-60 | along every run: received, then slot, then queued senders is at every point what was accepted, in order, if and only if no step of the run does either |
| Messages.NoneLostIff | system/create.c:58-62 | and accepted is at every point received plus pending, as multisets, if and only if no create is over an unread message |
| Messages.KillKeepsPending | system/kill.c:45-56 | kill changes nothing that is pending for anyone, its target included |
| Messages.CreateInherits | system/create.c:58-62 | a process created in a slot has pending what the waiting senders of the last one hold, so something if and only if any waits; the message in the slot is dropped |
| Messages.Fifo | system/send.c:37-60 | so along every run without recvnow past a waiting sender and without a kill with mail pending FIFO holds, and waiting senders imply a full slot |
| Messages.RecvBlocksIff | system/recv.c:25-29 | recv blocks with mail pending if and only if senders wait behind an empty slot |
| Messages.Overtaken | system/recvnow.c:29-31 | after a recvnow past waiting senders, the message of a sendnow is what the next recv returns, and the order is kept only if all those waiting are equal to it |
| Messages.BootedChannels | system/initialize.c:110-116 | every channel is empty at boot |
| Effects.ReschedIs | system/resched.c:18-100 | resched, written out for all queues, counters and entries: the first of the middle level goes up at every third call and the first of the lowest at every ninth, a process that still runs goes behind those of its priority, and the first of the highest level runs with a quantum of three; nothing else changes |
| Effects.TickIs | system/clkhandler.c:18-41 | a tick takes one off the quantum of its core and counts, a thousand to the second; it changes no other counter, entry or queue, and is a resched of that state besides exactly at the end of the quantum |
| Effects.DoTickIs | system/clkhandler.c:18-41 | every core may tick and reschedule at any time |
| Effects.ReadyIs | system/ready.c:27-35 | ready sets the state and, for a process on no core yet, the core asked for, appends it to the queue of its core and priority, and changes nothing else |
| Effects.ReadyRefused | system/ready.c:23 | it refuses exactly the numbers that are no process's, and then changes nothing |
| Effects.DoReadyIs | system/ready.c:27-35 | a suspended process is bound to the core asked for and queued there |
| Effects.DoWakeIs | system/recv.c:40 | the process to be woken is queued on its own core, or nothing happens if it was killed |
| Effects.DoSendIs | system/send.c:17-63 | the three outcomes of send, field by field |
| Effects.DoSendNowIs | system/sendnow.c:17-49 | the two outcomes of sendnow, field by field |
| Effects.CollectIs | system/recv.c:32-46 | taking a message, field by field, with and without a sender that waits |
| Effects.DoRecvIs | system/recv.c:16-46 | the outcomes of recv up to its first release, field by field |
| Effects.DoCollectIs | system/recv.c:30-46 | and from where resched returned |
| Effects.DoRecvNowIs | system/recvnow.c:15-33 | recvnow lowers the flag and changes nothing else |
| Effects.DoReturnIs | system/send.c:43-62 | send returns from its resched with nothing changed |
| Effects.IntIs | include/proc.h:70 | what an int holds of a word, and the word it is passed on as |
| Effects.DoCreateIs | system/create.c:37-62 | create succeeds exactly with a block and a slot; the slot then has the priority asked for, PRSUSP, core -1, no message, EMPTY words, the block getmem returned and the int of its length; every other entry and every queue is as it was |
| Effects.KillAccepted | system/kill.c:23-29 | a kill is accepted exactly of the live user processes of the calling core |
| Effects.DoKillIs | system/kill.c:31-58 | an accepted kill frees the slot, takes a ready process out of its queue, counts it off and frees its stack; a process that kills itself then reschedules; nothing else changes |
| Effects.BootIs | system/initialize.c:106-178 | the booted state, entry by entry |
| Machines.FillProctab | system/initialize.c:110-169 | the loop over the process table, and the null processes with their stacks |
| Machines.FillReady | system/initialize.c:172-178 | the ready lists get the queue ids of their core and priority |
| Machines.FillCores | system/clkinit.c:35-57 | each core starts with its null process, full counters and the clock at zero |
| Machines.Machine.constructor | system/initialize.c:82-186 | boot makes the machine that the initial state of the model describes, with invariant and books in order unless the cast of the share leaves nothing |
| Machines.Machine.Promote | system/resched.c:39-42 | dequeue then enqueue moves the head of one ready queue to the end of another |
| Machines.Machine.Age | system/resched.c:31-63 | the aging code refines the model's aging |
| Machines.Machine.EnqueueReady | system/ready.c:35 | enqueue on a ready list appends to that queue alone |
| Machines.Machine.Requeue | system/resched.c:65-70 | refines the model's requeue |
| Machines.Machine.Highest | system/resched.c:72-85 | the tests of the three queues find the highest level with a process |
| Machines.Machine.Dispatch | system/resched.c:72-93 | refines the model's dispatch |
| Machines.Machine.Resched | system/resched.c:18-100 | refines the model's resched and keeps the invariant |
| Machines.Machine.ClkHandler | system/clkhandler.c:18-41 | refines the clock step |
| Machines.Machine.Ready | system/ready.c:17-45 | refines ready, bad process numbers refused with SYSERR, and with the flag set reschedules exactly if the process belongs to the calling core |
| Machines.Machine.Enlist | system/ready.c:23-35 | the part of ready before that |
| Machines.Machine.Send | system/send.c:17-63 | refines the send step and returns SYSERR exactly for a bad receiver |
| Machines.Machine.SendNow | system/sendnow.c:17-49 | refines the sendnow step and returns SYSERR exactly for a bad receiver or a full slot |
| Machines.Machine.Deposit | system/send.c:47-57 | message in, flag up, wake-up claimed if the receiver waits |
| Machines.Machine.Recv | system/recv.c:16-49 | refines recv up to its first release, with the message it returns if any |
| Machines.Machine.Collect | system/recv.c:30-48 | refines recv from where resched returned, with the message it returns |
| Machines.Machine.Take | system/recv.c:32-46 | takes the message and admits the next sender |
| Machines.Machine.RecvNow | system/recvnow.c:15-33 | refines recvnow, with the message or the failure it returns |
| Machines.Machine.Wake | system/send.c:54 | refines the call of ready after the lock is released, with the resched that send asks for |
| Machines.Machine.NewPid | system/create.c:113-128 | the loop finds the next free slot round from nextpid |
| Machines.Machine.Create | system/create.c:27-64 | refines create for every size, with the process number or failure it returns |
| Machines.Machine.Kill | system/kill.c:18-59 | refines kill for every target and returns SYSERR exactly where it refuses |
| Machines.Machine.FreeStackOf | system/kill.c:43 | the stack of a live process, its length passed through an int, always goes back to the heap and nothing else does |
| Machines.Machine.RemoveReady | system/kill.c:51-52 | remove takes a ready process out of its queue alone |
| Machines.Machine.Step | system/resched.c:18-100 | whatever the step, running its code takes the machine to the state the model says, with the invariant kept; every stack stays in place unless a create mislays one, and the books right unless one leaks |
| Witnesses.LeakReached | system/create.c:41-47 | from boot 46 creates fill the table, and one more loses the stack it gets |
| Witnesses.MislayReached | system/create.c:55-56 | at boot on a long of more than 32 bits, a stack of 2^31 bytes is one that kill cannot give back |
| Witnesses.OvershootReached | system/create.c:41-56 | at boot on 32 bits, for each of the four sizes whose rounding wraps: a process is made whose stack is still on the free list |
| Witnesses.OvershootKill | system/kill.c:43 | a run in which such a process is created and readied: its kill calls freemem on the start of a free block with a length that rounds to nothing |
| Witnesses.KillOfSender | system/kill.c:45-56 | from boot a run in which a blocked sender is killed and create then hands out its slot, still in the queue: the tables break and its message is lost |
| Witnesses.KillOfWaker | system/kill.c:45-56 | a run to a state where nobody is stranded and killing a process about to ready another strands that one |
| Witnesses.StaleReached | system/ready.c:23-35 | a run to a state where create hands out a slot that another process then readies with core -1 |
| Witnesses.OvertakingReached | system/recvnow.c:29-31 | a run to a state where, after a recvnow, recv would block with mail pending and a sendnow overtakes a waiting sender |
| Witnesses.SuccessorReached | system/create.c:58-62 | a run to a state where create drops one message of a dead process and inherits another |
| Spinlocks.InitialInv | system/platforminit.c:96-101 | all locks free and without owner satisfies the invariant |
| Spinlocks.StepKeeps | system/spinlock_util.S:17-60 | every instruction of every core keeps it, with strex failing at will |
| Spinlocks.SwapKeeps | system/atomic_utils.S:35-40 | amoswap keeps the invariant |
| Spinlocks.SwapIs | system/atomic_utils.S:35-40 | amoswap stores in any case, hands back what was there, and takes the lock exactly if that was zero, on every core |
| Spinlocks.StoreIs | system/spinlock_util.S:29-36 | strex stores and takes the lock exactly with its reservation in place, and says whether it did |
| Spinlocks.PlainIs | system/spinlock_util.S:17-60 | every other instruction, register by register |
| Spinlocks.AcquireFree | system/spinlock.c:63-75 | lock_acquire of a free lock by any core that is left alone, on either instruction set, returns with the lock held, the core its owner, and nothing else changed but reservations of it |
| Spinlocks.AcquireTaken | system/spinlock_util.S:17-28 | of a taken lock it is back at the load with nothing changed but its registers |
| Spinlocks.TriesAgain | system/spinlock_util.S:33-36 | so it is after a store that failed or came too late |
| Spinlocks.ReleaseAlone | system/spinlock.c:82-91 | lock_release by a core that is left alone frees that lock and takes its owner out |
| Spinlocks.MutualExclusion | system/spinlock.c:63-91 | in every state of every run, on either instruction set: at most one core holds a lock, the word is locked exactly when one does, and the core field is the holder or -1 |
| Spinlocks.AcquiredAlone | system/spinlock.c:70-73 | a core that returns from lock_acquire holds the lock alone and is its owner |
| Spinlocks.ReleaseIff | system/spinlock.c:82-91 | an uninterrupted lock_release keeps the locks sound if and only if no other core holds the lock |
| Spinlocks.StrayClearIff | system/spinlock.c:87 | with other cores in between, the first instruction of a release by a core without the lock keeps the locks sound if and only if no owner is entered |
| Spinlocks.StrayUnlockIff | system/spinlock.c:88 | and its store if and only if no core holds the lock at that moment |
| Spinlocks.StrayRelease | system/spinlock.c:82-91 | on either instruction set six steps from the initial state lead to one where the release of another core frees a lock that is held |
| Spinlocks.OneStoreWins | system/spinlock_util.S:29-36 | of two cores that loaded the lock as free only one stores |
| Sorting.SwapElements | lib/libxc/qsort.c:93-106 | exchanges two byte ranges and touches nothing else |
| Sorting.SwapRefines | lib/libxc/qsort.c:100-105 | that exchanges two elements and changes no other |
| Sorting.Scan | lib/libxc/qsort.c:55-80 | what is at most the pivot gathers in front, what is at least the pivot behind; ends for every element size, zero too |
| Sorting.Partition | lib/libxc/qsort.c:52-90 | a permutation with everything before the returned index at most, everything after at least the pivot |
| Sorting.QSort | lib/libxc/qsort.c:31-43 | for every comparator that is a total preorder: a sorted permutation, and no byte outside changes |
| Numerals.NumeralValue | lib/libxc/doscan.c:369-420 | the digits of a number read back as that number, in every base scanned |
| Numerals.DigitCharIs | lib/libxc/doprnt.c:510 | digits from ten on are a to f, or A to F if upper case is asked for |
| Numerals.NumeralDigits | lib/libxc/doprnt.c:501-554 | in every base, two included: the numeral is the shortest, and its digit at each place counts the multiples of that power of the base |
| Numerals.DigitValIs | lib/libxc/doscan.c:369-420 | which characters are digits of a base, in either case, and what they are worth |
| Numerals.LeadingZeros | lib/libxc/doprnt.c:427-436 | zeros in front do not change the value |
| Printing.ShiftIsDivision | lib/libxc/doprnt.c:533-546 | masking and shifting give the digits of division |
| Printing.Divide | lib/libxc/doprnt.c:519-530 | the division loop leaves the reversed numeral in at most as many places as the word has bits |
| Printing.Shift | lib/libxc/doprnt.c:531-546 | the shift loop leaves the same |
| Printing.CopyReversed | lib/libxc/doprnt.c:548-553 | the last loop copies it the right way round |
| Printing.UlongToString | lib/libxc/doprnt.c:501-554 | the shortest numeral and a terminator, never past LONG_BITS + 1 characters |
| Printing.Sink.Putc | lib/libxc/sprintf.c:46-59 | one more character at the end of the output |
| Printing.FormattedParts | lib/libxc/doprnt.c:404-459 | a field is spaces, sign, zeros, numeral, spaces, in the numbers flags, width and precision call for |
| Printing.FieldIs | lib/libxc/doprnt.c:354-459 | a field place by place: how wide it is, where sign and numeral stand, and where there are spaces and zeros |
| Printing.Sink.Convert | lib/libxc/doprnt.c:354-459 | the length computations and output loops write exactly that field |
| Printing.Sprintf | lib/libxc/sprintf.c:29-41 | writes the converted value and a terminator and returns the length, the most negative value included |
| Scanning.Source.Getch | lib/libxc/sscanf.c:48-64 | the next character, or EOF at the terminator without moving |
| Scanning.Source.SkipSpaces | lib/libxc/doscan.c:315-326 | the first character that is no white space, or EOF |
| Scanning.Source.ScanDigits | lib/libxc/doscan.c:369-422 | consumes the longest run of digits; the value is theirs modulo the word |
| Scanning.Source.ScanNumber | lib/libxc/doscan.c:297-455 | sign, digits, value, position, match and end of input for every string |
| Scanning.ReadsNumber | lib/libxc/doscan.c:297-455 | any of the six white-space characters in front, a minus, a plus or nothing, and digits up to the first character that is none: matched, with that sign and those digits, and stopped right behind |
| Scanning.ReadsNothing | lib/libxc/doscan.c:297-455 | no digit behind space and sign: not matched, and the input ran out exactly if nothing is left |
| Scanning.WordSum | lib/libxc/doscan.c:369-437 | the number is that of the digits modulo the word, negated there after a minus |
| Scanning.Sscanf | lib/libxc/sscanf.c:33-43 | 1 if a number was there, EOF if the input ran out first, else 0 |
| Scanning.ReadPrinted | lib/libxc/doscan.c:353-420 | reading what was printed finds its sign and magnitude, whatever the flags, width and precision |
| Scanning.RoundTrip | lib/libxc/doprnt.c:272-352 | the number scanned from what was printed is the value: %d and %ld for every signed value, %u, %o, %x, %X for every unsigned one, every width of integer up to a long |
| Scanning.SpacedRoundTrip | lib/libxc/doscan.c:315-326 | so it does with any white space in front of the numeral and anything behind it that is no digit |
| Scanning.ScanStores | lib/libxc/doscan.c:429-451 | and stored in memory it is what the argument then holds, also where %X stores a long into something shorter |
| Scanning.BehindKeptIff | lib/libxc/doscan.c:168-172 | what lies behind the argument stays as it was, whatever is read, if and only if the conversion is not %X into something shorter than a long |
| Scanning.StoredValue | lib/libxc/doscan.c:429-451 | a number stored as so many bytes and read back is itself modulo their width |
| Scanning.PrintThenScan | lib/libxc/sscanf.c:33-43 | the two calls one after the other return 1 and the value |
| DeviceTree.C2IOffIff | system/dtb.c:16-19 | the least number of words that hold so many bytes if and only if these are fewer than 2^32 |
| DeviceTree.ParseDtbNodes | system/dtb.c:104-150 | the loop reports what the recursive walk reports, on every blob that the walk does not leave |
| DeviceTree.WalkItems | system/dtb.c:119-142 | over an encoded list of items the walk reports each property once, in order, and goes on right behind |
| DeviceTree.TokenIs | system/dtb.c:119-148 | what the walk does at each token, by its number |
| DeviceTree.SampleWalk | system/dtb.c:104-150 | a blob of 36 bytes, written out, and the one event it gives |
| DeviceTree.OwnNamesIff | system/dtb.c:121-139 | each property carries its own node's name if and only if no property follows a subnode |
| DeviceTree.NameLost | system/dtb.c:136-139 | a node with one subnode and then a property: that property is reported without a name |
| DeviceTree.ParseUndoesEncode | system/dtb.c:104-150 | on the encoding of any tree (Devicetree Specification, section 5.4) in a blob of fewer than 2^32 bytes, with anything behind it, the walk returns OK, consumes exactly the encoding and reports every property |

## Left out

- Devices, boot and trap code, context switching: `ctxsw` is the change of `currpid` alone.
- The stack frame and registers that `create` fills in (system/create.c:64-104): they are not read by anything modelled.
- Timer interrupts inside a lock-held section of `send` and `recv`, which do not disable interrupts: sections are atomic.
- Kernel.Create: one atomic step, although it takes no lock and `newpid` reads `nextpid` again after its atomic increment; priorities above 2 are outside the steps of a run.
- Kernel.Kill: one atomic step, although it takes no lock and leaves interrupts on.
- KernelRuns.StepKeeps: the steps are those of a run, as below.
- KernelRuns.RunKeeps: runs have no create over a slot that is still queued or claimed; what that does, CreateKeepsIff, StaleReady and StaleMember state.  The same holds of every other theorem about runs.
- Kernel.FreeStack: for a length that rounds to nothing the lists are left as they are; what the headers then look like, NothingAtStart and NothingElsewhere state.
- Machines.Machine.Kill: asks for the invariant and for the stack of its target to be allocated, since `freemem` picks a list by address and has no list for an address in no region.
- Machines.Machine.Step: asks that every process have its stack, as Kill does.
- Kernel.Dec: wraps at 32 bits, whatever the width of a `ulong`; AlwaysSchedules shows that no counter is at zero when it is decremented.
- Machines.Machine.SendNow: the source takes the lock of `proctab[pid]` before it checks `pid`, an access outside of the table when `pid` is out of range; here the check comes first.
- Machines.Machine.FreeStackOf: only for a process with an allocated stack.
- Allocator.Pool.FreeMem: addresses in no region (NoRegionIff), for which the source indexes a free list that does not exist, and a range that ends exactly at the word size with no free block above, for which it reads a header at NULL, are outside its precondition.
- Allocator.Pool.constructor: a heap whose end, rounded, lies below its start is outside its precondition; the source would compute with a difference that wraps.
- Machines.Machine.constructor: likewise.
- Queues.QueueTab.Enqueue: queue ids that pass `isbadqueue` and that newqueue never returned are outside its precondition.
- Queues.QueueTab.Dequeue: likewise.
- Queues.QueueTab.NonEmpty: likewise.
- Queues.QueueTab.Remove: links that lead out of the table are outside its precondition; the source would read there.
- Queues.QueueTab.FindHead: likewise.
- PageTables.Paging.PgFreeRange: a range with a page that is already free is outside its precondition; PgFree and PushIff say what that page does to the list.
- The locks inside the queue table and the free lists: each operation on them is one step.
- `lock_create`, `lock_free` and the off-by-one in `isbadlock`: boot-time bookkeeping; a spinlock run is over existing locks.
- Liveness of the spinlocks: a spinning core may wait forever.
- `mapPage` and `mapAddress` print when they overwrite a valid entry: only the entry is modelled.
- Parsing of format strings, `%s`, `%c`, `%[`, maximum field widths and suppressed assignment: the conversions start from parsed flags, width and precision.
- Printing.Sprintf: one conversion whose format is already parsed.
- Scanning.Sscanf: one conversion whose format is already parsed; inputs of 2^32 - 1 characters or more are outside its precondition.
- Scanning.PrintThenScan: starts from parsed conversions, and gives the number scanned; ScanStores says what memory then holds.
- DeviceTree.ParseDtbNodes: blobs of 2^32 bytes or more, which the 32-bit size in their header cannot describe, and blobs whose walk runs off their end, where the source reads on.
- `handleProp` and the reading of property values: a call is an event with its arguments.
- `malloc`, string functions, the configuration generator, system call dispatch: wrappers that would add only easy members.
- Fairness.ClockCounts: `clktime` is unbounded here, while the source's wraps at the word size.
- Machines.Machine.ClkHandler: likewise.
- The RISC-V build sets PREEMPT to 0 (include/riscv.h:17); the clock step follows include/kernel.h:39, where it is TRUE.
