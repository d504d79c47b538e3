# Buddy allocator, paged pool and stream network

A Dafny model of three programs of the EECE4029 repository, with proofs about every run of each:

- the **buddy allocator** of `hw5_vmm/buddy.c`: a tree of heap nodes that splits on allocation and coalesces on the way back
  from a free;
- the **paged pool** of `hw5_vmm/vmm.c`: the ioctl interface that allocates, frees, writes and reads through it;
- the **streams** of `hw3_pthreads/streams.c` (a five-slot ring with several consumers) and the **process network** that
  `hw3_pthreads/main.c` builds from them: successor, times5 and times7, merge, consumer.

`dafny verify dfyconfig.toml` verifies the project.

## Layout

| file | what it holds |
|---|---|
| `Powers.dfy` | powers of two and their multiples |
| `BuddyTree.dfy` | the tree as a value, the tree walks as functions, and what one call does to the live blocks |
| `BuddyCanonical.dfy` | the tree is determined by its live blocks; undo, commutation, the size query |
| `BuddyReach.dfy` | reachable trees, leftmost fit, space conservation, termination and depth |
| `BuddyFirstFit.dfy` | the tree refines first fit over the positions that halving the pool reaches, for every pool size; in pools of 2^k bytes these are the aligned runs |
| `Buddy.dfy` | the heap nodes, the C heap's ledger, and the allocator's globals, updated in place |
| `VmmModel.dfy` | the ioctls as steps on a value; isolation and read-back over runs |
| `VmmAnswers.dfy` | what each ioctl promises by the live blocks and bytes alone; every call of every run keeps it |
| `VmmDevice.dfy` | the device with its write and read loops, updated in place, and runs of calls |
| `StreamModel.dfy` | what `get` and `put` look at and do, as functions on a ring |
| `StreamProtocol.dfy` | the program points of `get` and `put` for any number of threads, and the invariant |
| `StreamRuns.dfy` | exactly-once delivery over runs |
| `StreamAsIs.dfy` | the stream as the code stands, stale reads included: what its slots hold, and why it never comes to a halt by itself |
| `Streams.dfy` | the structs and critical sections, updated in place |
| `Merging.dfy` | the sorted merge of two lists of multiples |
| `Network.dfy` | the five processes and the network's invariant |
| `NetworkRuns.dfy` | every schedule: what the consumer gets, progress, bounds, the end, and on which schedules of the code as it stands |
| `NetworkAsIs.dfy` | the schedules of the code as it stands: every one ends |
| `NetworkRace.dfy` | two schedules of the code as it stands: one stops the network before the consumer has anything, one makes its first value wrong |
| `Processes.dfy` | `get`, `put` and the five process loops, one action at a time on the structs, updated in place |
| `Program.dfy` | the objects of the running program, acting in every schedule as the network of values says |
| `MainNetwork.dfy` | the streams and connections that main.c sets up |

## What is assumed

- Integers are unbounded. Every index and size of the allocator lies between 0 and the pool size, so none of its `int`
  expressions can wrap; the tokens of the network stay below 300 (`TokensBounded`).
- `bmalloc` of a node inside `_buddy_alloc` succeeds; `buddy_init` may fail in either of its allocations.
- User buffers are sequences of bytes that contain a terminator. One ioctl is one step.
- All `stream_connect` calls come before the first `put`. Waiting on a condition variable is a guard: a thread may go on
  when the condition of its loop is false. A thread may be overtaken between any two of its program points.
- Tokens are integers. Mutexes are atomic steps; no fairness is assumed.

## Where the code falls short of its documentation

- **Requests below one byte.** With any FREE leaf such a request never returns (`AllocEndsIff` says exactly when a request
  returns).
- **The bound of the write loop** (`hw5_vmm/vmm.c:75`) lets one byte more than the block pass, against its own comment.
  `WriteStaysInsideIff` says exactly which writes stay inside, `WriteSparesOthersIff` exactly which reach another block;
  `OverlongWriteReachesNeighbour` is one that does and is reported as a success.
- **The first wait of `get`** (`hw3_pthreads/streams.c:36-39`) is not looked at again after the second
  (`hw3_pthreads/streams.c:42-45`). A consumer that is up to date can then read a value a second time.
  `ExactlyOnceIffNoStaleRead` says that this is the only way to break delivery, `StaleReadsIffTwoConsumers` that it takes two
  consumers, and `JointGuardNeverStale` that looking at both waits at the moment of the read prevents it. The stream by
  itself does not come to a halt even so (`StreamNeverHalts`); main.c's network does.
- **main.c can stop before its consumer has anything, and its consumer's first value can be wrong.** In the schedule of
  `NetworkCanDeadlock`, from any start, times7 reads the successor's 1 twice and the 6 is stored over it before
  times5 has read anything; times5 then takes itself to be right behind the putter, and every thread waits. In that of
  `NetworkCanRepeat` times5 is past the first wait, reads the 6 for its first value, and the consumer receives 7, where
  the merge begins with 5. `StopsShortIff` and `WrongIff`: both can happen exactly when the consumer asks for anything at
  all. `BadRunIsStale`: such a run contains a stale read.
- The network is therefore modelled under three guards: `Joint`, with both waits looked at; `Fresh`, the code as it stands
  without stale reads; and `AsIs`, the code as it stands. `EveryRunDelivers` is about all three: it covers every run under
  the first two, and of the third exactly those in which every consumer of every stream receives each value once and in
  order, which by `FreshIffPrefixes` are those of the second.
- **The network ends.** Its buffers are bounded and its two branches unequal, so without stale reads it comes to a halt
  even with a consumer that never stops, with both waits looked at always after exactly 53 values. main.c's consumer asks
  for ten. With stale reads too every schedule ends, by a bound that depends on what the consumer asks for
  (`EveryScheduleOfTheCodeEnds`).
- `buddy_kill` gives back every node but not the pool, and `buddy_init` keeps the pool when the allocation of the head node
  fails (`hw5_vmm/buddy.c:21-24`).

## Model

| member | source | states |
|---|---|---|
| BuddyTree.AllocEffect | hw5_vmm/buddy.c:40-88 | a successful allocation adds one block inside the node's range, overlapping no other, holding the request and wasting less than half, and keeps the tree canonical; a failed one returns -1 and changes nothing |
| BuddyTree.AllocAdds | hw5_vmm/buddy.c:48-87 | the returned index is the start of the one new block; every other live block keeps its place and size |
| BuddyTree.AllocShape | hw5_vmm/buddy.c:40-88 | allocation never leaves a SPLIT node with two FREE children or an empty block, and never turns its tree FREE |
| BuddyTree.ReleaseEffect | hw5_vmm/buddy.c:97-136 | a free returns 0 exactly when a live block starts at the index, removes that block alone, and coalesces so that the tree stays canonical |
| BuddyTree.SizeQueryEffect | hw5_vmm/buddy.c:144-174 | the size query returns the distance to the end of the live block around the index, or -1 exactly when no live block contains it |
| BuddyTree.BlocksSeparate | hw5_vmm/buddy.c:63-76 | the live blocks of a reachable tree are non-empty, inside the pool and pairwise disjoint |
| BuddyCanonical.NoBlocksIsFree | hw5_vmm/buddy.c:109-116 | a reachable tree without live blocks is the single FREE root |
| BuddyCanonical.SameBlocksSameTree | hw5_vmm/buddy.c:40-136 | canonical form: two reachable trees of a pool with the same live blocks are the same tree |
| BuddyCanonical.AllocThenFree | hw5_vmm/buddy.c:40-136 | freeing what was just allocated returns 0 and restores the tree node for node |
| BuddyCanonical.FailedFreeChangesNothing | hw5_vmm/buddy.c:97-136 | a free returns -1 and leaves the tree alone exactly when no live block starts at the index |
| BuddyCanonical.FreesCommute | hw5_vmm/buddy.c:97-136 | frees of two indices in either order give the same tree and the same return codes |
| BuddyCanonical.FreeingEverythingGivesTheRoot | hw5_vmm/buddy.c:97-136 | after any list of frees the FREE root is left exactly if the list names every live block |
| BuddyCanonical.SizeQueryInsideBlock | hw5_vmm/buddy.c:161-170 | inside a live block the size query counts down byte by byte |
| BuddyCanonical.SearchOrderIsIrrelevant | hw5_vmm/buddy.c:148-159 | searching the left side first would answer the same |
| BuddyReach.ReachableIffCanonical | hw5_vmm/buddy.c:12-136 | the trees that runs of allocations and frees produce from `buddy_init` are exactly the canonical ones |
| BuddyReach.RecipeWorks | hw5_vmm/buddy.c:40-136 | every canonical tree is the result of an explicit run in which each allocation succeeds |
| BuddyReach.ExecKeepsCanonical | hw5_vmm/buddy.c:40-136 | every run keeps the tree canonical |
| BuddyReach.HistoryIsForgotten | hw5_vmm/buddy.c:40-136 | two histories leave the same tree exactly when they leave the same live blocks |
| BuddyReach.LeftmostFit | hw5_vmm/buddy.c:48-87 | an allocation takes the leftmost FREE leaf that is large enough and fails only if there is none, for every pool size |
| BuddyReach.SpaceIsConserved | hw5_vmm/buddy.c:73-76 | pool size = sum of the leaf sizes + number of SPLIT nodes of odd size |
| BuddyReach.AllocDepth | hw5_vmm/buddy.c:40-88 | log2 of the pool size plus one nested calls suffice, and give the answer of the unbounded recursion |
| BuddyReach.AllocDiverges | hw5_vmm/buddy.c:63-81 | with a FREE leaf a request below one byte exceeds every depth |
| BuddyReach.AllocEndsIff | hw5_vmm/buddy.c:40-88 | an allocation returns exactly when it asks for at least one byte or no leaf is FREE |
| BuddyFirstFit.FreeLeafIsSlot | hw5_vmm/buddy.c:63-76 | a FREE leaf is one of the positions that repeated floor-halving of the pool reaches, and no byte of it belongs to a live block |
| BuddyFirstFit.FreeSlotIsInLeaf | hw5_vmm/buddy.c:109-116 | what coalescing is for: every such position without a live byte lies in one FREE leaf |
| BuddyFirstFit.BlockIsSlot | hw5_vmm/buddy.c:63-76 | every live block is such a position |
| BuddyFirstFit.OnlyFitIsTight | hw5_vmm/buddy.c:63-87 | of the sizes that halving reaches, exactly one holds a request and wastes less than half of itself |
| BuddyFirstFit.SufficientSlot | hw5_vmm/buddy.c:63-81 | a position that is large enough for a request begins with one of exactly that size |
| BuddyFirstFit.AllocIsFirstFit | hw5_vmm/buddy.c:40-88 | for every pool size, an allocation takes the first position of the least sufficient size without a live byte, exactly that position, and returns -1 when there is none |
| BuddyFirstFit.AllocFailsIff | hw5_vmm/buddy.c:40-88 | it returns -1 exactly when no position of sufficient size, of whatever size, is entirely free |
| BuddyFirstFit.SlotIsAligned | hw5_vmm/buddy.c:63-76 | in a pool of 2^k bytes the positions that halving reaches are powers of two long and aligned to their length |
| BuddyFirstFit.AlignedIsSlot | hw5_vmm/buddy.c:63-76 | and they are all of those |
| BuddyFirstFit.FitsIsAligned | hw5_vmm/buddy.c:40-88 | so there an allocation looks for the first aligned free run of the request rounded up to a power of two |
| BuddyFirstFit.AlignedAllocFailsIff | hw5_vmm/buddy.c:40-88 | and returns -1 exactly when there is none |
| BuddyFirstFit.FreeLeafIsRun | hw5_vmm/buddy.c:63-76 | in a pool of 2^k bytes a FREE leaf is a run of free bytes, a power of two long and aligned to its length |
| BuddyFirstFit.RunIsInLeaf | hw5_vmm/buddy.c:109-116 | and every aligned run of free bytes lies in one FREE leaf |
| BuddyFirstFit.BlockIsPowerOfTwo | hw5_vmm/buddy.c:63-76 | every live block of a pool of 2^k bytes is a power of two long and aligned to its length |
| BuddyFirstFit.LeavesTile | hw5_vmm/buddy.c:63-76 | live blocks and FREE leaves tile a pool of 2^k bytes: each byte lies in exactly one |
| BuddyFirstFit.TreeRefinesMap | hw5_vmm/buddy.c:40-136 | over every run, on a pool of any size, the tree allocator returns the same values and keeps the same live blocks as an allocator that knows the block map alone |
| BuddyFirstFit.MapRunIsDeterministic | hw5_vmm/buddy.c:40-136 | that block-map allocator has one possible answer, so the refinement fixes every return value |
| Buddy.Heap.BMalloc | hw5_vmm/buddy.h:12-17 | a fresh node with arbitrary contents, counted |
| Buddy.Heap.BFree | hw5_vmm/buddy.h:13-18 | accepts only a node that is still allocated, counted |
| Buddy.Halve | hw5_vmm/buddy.c:66-78 | a FREE node becomes SPLIT over two new FREE nodes of half its size, side by side from its index on |
| Buddy.AllocLeft | hw5_vmm/buddy.c:50 | the recursive call on the left child updates that side of the tree and leaves the other alone |
| Buddy.AllocRight | hw5_vmm/buddy.c:53 | the recursive call on the right child updates that side of the tree and leaves the other alone |
| Buddy.AllocHalf | hw5_vmm/buddy.c:63-81 | a FREE node large enough for two is halved and the request goes to its left half |
| Buddy.AllocNode | hw5_vmm/buddy.c:40-88 | the update in place computes `Alloc` on the tree it represents, keeps the nodes unshared, and allocates exactly the nodes that the tree gains |
| Buddy.MergeIfFree | hw5_vmm/buddy.c:109-116 | two FREE children, and no others, are given back and their parent becomes FREE |
| Buddy.FreeBelow | hw5_vmm/buddy.c:106-107 | both recursive calls update their side of the tree |
| Buddy.FreeSplit | hw5_vmm/buddy.c:103-123 | on a SPLIT node both sides are updated and two FREE children coalesce |
| Buddy.FreeNode | hw5_vmm/buddy.c:97-136 | the update in place computes `Release` on the tree it represents and gives back exactly the nodes that the tree loses, none twice |
| Buddy.SizeNode | hw5_vmm/buddy.c:144-174 | the walk over the nodes computes `SizeQuery` on the tree they represent |
| Buddy.KillNode | hw5_vmm/buddy.c:179-189 | gives back as many nodes as the tree has, none twice |
| Buddy.NodesOfSplits | hw5_vmm/buddy.c:69-70 | a tree has two nodes for every SPLIT one, and the root |
| Buddy.BuddyInit | hw5_vmm/buddy.c:12-33 | 0 and a single FREE root over the whole pool, or -1 if either allocation fails |
| Buddy.BuddyAllocator.BuddyAlloc | hw5_vmm/buddy.c:219 | one more live block, holding the request and wasting less than half, or -1 and the same tree; nodes outstanding = nodes of the tree |
| Buddy.BuddyAllocator.BuddyFree | hw5_vmm/buddy.c:220 | 0 and exactly that block less, or -1 and the same tree; nodes outstanding = nodes of the tree |
| Buddy.BuddyAllocator.BuddyRun | hw5_vmm/buddy.c:219-220 | a run of allocations and frees on the nodes returns the values and leaves the tree that the run on trees does |
| Buddy.BuddyAllocator.BuddyRunOnMap | hw5_vmm/buddy.c:219-220 | so over every run the nodes do what an allocator does that knows the block map alone |
| Buddy.BuddyAllocator.BuddySize | hw5_vmm/buddy.c:221 | the size query on the current tree |
| Buddy.BuddyAllocator.BuddyKill | hw5_vmm/buddy.c:223 | every node ever allocated has been given back |
| VmmModel.StepKeepsValid | hw5_vmm/vmm.c:33-120 | every ioctl keeps the tree canonical and the pool's length |
| VmmModel.ReadIsDefined | hw5_vmm/vmm.c:93-112 | a read never reaches outside the pool, whatever index and size were set |
| VmmModel.ReadFailsIff | hw5_vmm/vmm.c:95-117 | with the current index in a live block a read returns -1 exactly when it asks for more bytes than lie between the index and the end of the block; otherwise it returns how many bytes it handed out, all asked for, and each is the byte of that block at its place; it changes nothing |
| VmmModel.ReadOutsideFailsIff | hw5_vmm/vmm.c:95-117 | with no live block there it returns -1 exactly when the size is 0 or more, and hands out nothing |
| VmmModel.ReadsLastWritten | hw5_vmm/vmm.c:57-117 | after every run each byte a read hands out is the last one stored at its address, or what was there before |
| VmmModel.FittingIsDefined | hw5_vmm/vmm.c:57-91 | a write that fits its block stores nothing outside the pool |
| VmmModel.FittingRunIsDefined | hw5_vmm/vmm.c:33-120 | so a run whose writes all fit and whose requests are for at least one byte has a defined effect throughout |
| VmmModel.WriteStaysInsideIff | hw5_vmm/vmm.c:74-86 | a write touches only bytes of the block around the current index exactly when its string fits; otherwise it touches the byte after the block; it returns -1 only when it is at least two bytes too long |
| VmmModel.OverlongWriteReachesNeighbour | hw5_vmm/vmm.c:75-91 | a write one byte too long that changes the next block and returns success |
| VmmModel.RoomInBlock | hw5_vmm/vmm.c:63 | the room a write sees counts to the end of the block that contains the current index |
| VmmModel.LastByteWins | hw5_vmm/vmm.c:57-91 | over every run, each byte of the pool is the last one stored at its address |
| VmmModel.WriteSparesOthersIff | hw5_vmm/vmm.c:74-86 | a write through one block touches no byte of another exactly when its string fits or the byte after the block is not live |
| VmmModel.WriteMissesBlockIff | hw5_vmm/vmm.c:57-91 | exactly which writes touch no byte of a given block |
| VmmModel.StepSparesBlock | hw5_vmm/vmm.c:33-120 | allocations, frees of other indices and writes that miss it keep a live block's place, size and bytes |
| VmmModel.RunSparesBlock | hw5_vmm/vmm.c:33-120 | isolation: so does every run of them, whatever its writes do to other blocks |
| VmmModel.ReadBackAfterRun | hw5_vmm/vmm.c:57-117 | what a write stored in a block is read back from any index inside it, after any run that spares the block |
| VmmAnswers.AllocAnswers | hw5_vmm/vmm.c:35-38 | an ALLOC of at least one byte returns the start of the first free position of the least sufficient size, which is then a live block of that size, or -1 and no change when there is none; bytes and settings are kept |
| VmmAnswers.AllocNothing | hw5_vmm/vmm.c:35-38 | one of less than a byte, where it returns at all, returns -1 and changes nothing |
| VmmAnswers.FreeAnswers | hw5_vmm/vmm.c:40-43 | FREE returns 0 if a live block starts at the index, which is then gone, and -1 with no change otherwise; bytes and settings are kept |
| VmmAnswers.SettingsAnswer | hw5_vmm/vmm.c:45-55 | SET_IDX and SET_READ_SIZE return 0 and set that and nothing else, in either order to the same effect |
| VmmAnswers.IndexIsLastSet | hw5_vmm/vmm.c:45-49 | after every run the current index is the last one set, or the first one if none was |
| VmmAnswers.ReadSizeIsLastSet | hw5_vmm/vmm.c:51-55 | and so is the read size |
| VmmAnswers.WriteAnswers | hw5_vmm/vmm.c:57-91 | a WRITE in a live block returns the length of its string if that is at most one more than is left of the block, and -1 otherwise; it stores what fits and one byte more, from the current index on, and changes nothing else |
| VmmAnswers.WriteOutsideAnswers | hw5_vmm/vmm.c:57-91 | with no live block there it changes nothing, and returns 0 for the empty string and -1 for any other |
| VmmAnswers.StepIsSpecified | hw5_vmm/vmm.c:33-122 | every call does and answers what is said of it here and, for reads, in `ReadFailsIff` and `ReadOutsideFailsIff`; an unknown one answers 0 and does nothing |
| VmmAnswers.OnePromise | hw5_vmm/vmm.c:33-122 | that leaves one answer and one next state to each call |
| VmmAnswers.AnswersAre | hw5_vmm/vmm.c:25-123 | a run answers each of its calls once, with what the call answers in the state that the calls before it leave |
| VmmAnswers.EveryAnswerIsSpecified | hw5_vmm/vmm.c:25-123 | so every answer of every run, and every state between, is as said |
| VmmAnswers.AnsweredReads | hw5_vmm/vmm.c:57-117 | each byte that any READ of a run hands out is the last one stored at its address before it, or what was there at first |
| VmmDevice.Device.Write | hw5_vmm/vmm.c:57-91 | the byte-by-byte loop stores and returns what the write step says, for every string that stores no byte outside the pool |
| VmmDevice.Device.Read | hw5_vmm/vmm.c:93-117 | the byte-by-byte loop hands out and returns what the read step says |
| VmmDevice.Device.Ioctl | hw5_vmm/vmm.c:25-123 | each call is one step of the model, whose answer and effect `StepIsSpecified` gives by the live blocks |
| VmmDevice.Device.IoctlAll | hw5_vmm/vmm.c:25-123 | a sequence of calls is a run of the model: it leaves the run's state and gives its answers, one for each call as `EveryAnswerIsSpecified` says |
| VmmDevice.CStringEnds | hw5_vmm/vmm.c:69-72 | the string ends right before the first terminator |
| StreamProtocol.StartInv | hw3_pthreads/streams.c:227-267 | up to 9999 consumers connected before the first put satisfy the invariant |
| StreamProtocol.GuardsMean | hw3_pthreads/streams.c:36-45 | the first wait is over exactly when the consumer is not one value behind, the second exactly when there is a new value or the slowest consumer is a whole ring behind |
| StreamProtocol.PutNeverWaits | hw3_pthreads/streams.c:84-93 | a putter with a permit finds its slot read by everyone, so it never waits under the lock |
| StreamProtocol.PutKeepsInv | hw3_pthreads/streams.c:95-103 | a put keeps the invariant: no value that someone still has to read is overwritten |
| StreamProtocol.SlowestAfterRead | hw3_pthreads/streams.c:58-62 | the last reader of a value, and nobody else, gives the putter a permit |
| StreamProtocol.ReadTakesNext | hw3_pthreads/streams.c:54-65 | a read that is not stale delivers the next value for its consumer |
| StreamProtocol.ReadKeepsInv | hw3_pthreads/streams.c:54-65 | a read that is not stale keeps the invariant |
| StreamProtocol.StepKeepsInv | hw3_pthreads/streams.c:22-111 | so does every step |
| StreamProtocol.StaleReadRepeats | hw3_pthreads/streams.c:42-58 | a stale read delivers the value of five puts ago a second time, and takes a second consumer a whole ring behind |
| StreamProtocol.SomeoneCanMove | hw3_pthreads/streams.c:36-93 | with a consumer connected, a putter or the slowest consumer can always go on |
| StreamRuns.ExactlyOnceIffNoStaleRead | hw3_pthreads/streams.c:22-111 | in every interleaving each consumer receives, at every moment, a prefix of the values put, exactly when no read is stale |
| StreamRuns.EveryRunKeeps | hw3_pthreads/streams.c:22-111 | what holds in every state of such runs: order, lag, semaphore accounting, read counts, no waiting and no overwriting of unread values in `put` |
| StreamRuns.OneConsumerNeverStale | hw3_pthreads/streams.c:36-45 | with one consumer no interleaving has a stale read |
| StreamRuns.JointGuardNeverStale | hw3_pthreads/streams.c:36-45 | with both waits over at each read no run has a stale read, and every consumer stays behind the putter |
| StreamRuns.JointStep | hw3_pthreads/streams.c:36-65 | one step under the joint guard keeps every consumer at least one value behind |
| StreamRuns.StaleReadsIffTwoConsumers | hw3_pthreads/streams.c:22-111 | the code as it stands can deliver a value twice exactly when a stream has two consumers or more |
| StreamRuns.SentinelBound | hw3_pthreads/streams.c:237-238 | the mark of unwritten slots holds up to 9999 consumers and no further |
| StreamAsIs.StartRawInv | hw3_pthreads/streams.c:227-267 | up to 9999 consumers start in the invariant of the code as it stands |
| StreamAsIs.RawReadTakes | hw3_pthreads/streams.c:41-65 | what any read delivers, stale or not: with its c-th read a consumer gets the newest value in the c-th slot round the ring |
| StreamAsIs.OldestFirst | hw3_pthreads/streams.c:84-93 | slots become free in the order in which they were written, so a putter with a permit never waits under the lock, stale reads or not |
| StreamAsIs.RawPutKeepsInv | hw3_pthreads/streams.c:95-103 | a put keeps the invariant: the count of each slot is the number of reads of it since its value was put |
| StreamAsIs.RawReadKeepsInv | hw3_pthreads/streams.c:54-65 | so does every read; permits, putters under way and slots that are owed a read add up to five |
| StreamAsIs.FullRingIsRead | hw3_pthreads/streams.c:36-45 | with no slot free some consumer gets past its waits |
| StreamAsIs.StreamNeverHalts | hw3_pthreads/streams.c:22-111 | in every interleaving of the code as it stands, of any number of putters and consumers, a putter or a consumer can go on |
| Streams.StreamT.constructor | hw3_pthreads/streams.c:227-240 | `init_stream` leaves the empty ring of the model |
| Streams.StreamT.CaughtUp | hw3_pthreads/streams.c:36 | waits exactly while the model's first guard is false |
| Streams.StreamT.NothingNew | hw3_pthreads/streams.c:42 | waits exactly while the model's second guard is false |
| Streams.StreamT.TakeValue | hw3_pthreads/streams.c:54-65 | the rest of `get` is the model's read, and returns the value in the consumer's slot |
| Streams.StreamT.TakePermit | hw3_pthreads/streams.c:84 | one permit less and nothing else |
| Streams.StreamT.NotAllRead | hw3_pthreads/streams.c:89 | waits exactly while the model's put guard is false |
| Streams.StreamT.StoreValue | hw3_pthreads/streams.c:95-103 | the rest of `put` is the model's store |
| StreamModel.ConnectReadsNext | hw3_pthreads/streams.c:250-264 | whatever was put before, a new consumer's first value is the next one put, and the other consumers stay where they are |
| Streams.StreamConnect | hw3_pthreads/streams.c:245-267 | one more consumer, reading from the next value put; one more producer at the end of the reader's list |
| Merging.FivesClosed | hw3_pthreads/streams.c:180-190 | how many of the first k merged values come from the fives, in closed form |
| Merging.MergedTakesHeads | hw3_pthreads/streams.c:163-166 | the merge consists of the first values of both lists, ties kept |
| Merging.MergedIsSorted | hw3_pthreads/streams.c:163-166 | the merge is sorted and leaves nothing smaller behind |
| Merging.MergedPrefix | hw3_pthreads/streams.c:163-166 | a shorter merge is a prefix of a longer one |
| Network.GetKeepsChannel | hw3_pthreads/streams.c:22-74 | a process's `get` action keeps its stream's invariant and delivers the next value |
| Network.PutKeepsChannel | hw3_pthreads/streams.c:76-111 | a process's `put` action keeps its stream's invariant and appends the value |
| Network.ChannelBounds | hw3_pthreads/streams.c:36-93 | how far the two ends of a stream can be apart, and how far they are when one is stuck |
| Network.SuccessorStep | hw3_pthreads/streams.c:114-130 | the successor has put 1, 2, 3, ... |
| Network.TimesStep | hw3_pthreads/streams.c:134-160 | times5 (times7) has put 5 (7) times the values it has read, less the one it holds |
| Network.MergerPuts | hw3_pthreads/streams.c:179-187 | the merger puts the next value of the sorted merge |
| Network.MergerGets | hw3_pthreads/streams.c:176-187 | the merger refills the value it put from the side that it came from |
| Network.ConsumerStep | hw3_pthreads/streams.c:205-215 | the consumer counts the values it has read |
| Network.AdvanceKeepsNetInv | hw3_pthreads/main.c:40-54 | every action of every process that is not a stale read keeps the network's invariant |
| Network.StartNetInv | hw3_pthreads/main.c:34-44 | the network of main.c starts in it |
| NetworkRuns.Imbalance | hw3_pthreads/main.c:40-44 | the merger's reads from its two sides differ by at most 9 under the joint guard, 11 without |
| NetworkRuns.AdvanceKeepsBounded | hw3_pthreads/streams.c:168-191 | at most 54 values (66 without the joint guard) are ever put into the merged stream |
| NetworkRuns.EveryScheduleIsSafe | hw3_pthreads/main.c:40-54 | both hold throughout every schedule without a stale read, and so throughout every schedule under the joint guard |
| NetworkRuns.ConsumerSeesTheMerge | hw3_pthreads/streams.c:196-218 | schedule independence: what the consumer has received is the sorted merge, as far as it has received |
| NetworkRuns.StuckMerger | hw3_pthreads/streams.c:168-191 | a network that is stuck behind its merger is so because one branch is 9 values ahead of the other |
| NetworkRuns.StuckOnlyAtTheEnd | hw3_pthreads/main.c:40-54 | after such a schedule, no process can act other than by a stale read only if the consumer is done or has at least 53 values; under the joint guard then exactly 53, with 54 merged |
| NetworkRuns.EveryScheduleEnds | hw3_pthreads/main.c:40-54 | no schedule without a stale read has more than 811 actions, even with a consumer that never stops |
| NetworkRuns.EveryRunDelivers | hw3_pthreads/main.c:46-54 | every way to run the network, as the code stands too, in which every consumer of every stream receives each value once and in order, ends within 811 actions with the consumer holding exactly the first values of the sorted merge, all it asked for if that is at most 53; without stale reads every way to run it is such a one |
| NetworkRuns.SomeProcessCanAct | hw3_pthreads/main.c:46-54 | progress: in every such run, while the consumer waits for one of its ten values, some process can act |
| NetworkRuns.FreshIffPrefixes | hw3_pthreads/main.c:40-54 | a schedule of the code as it stands has no stale read exactly when at every moment every consumer of every stream has received a prefix of what was put into it; without one it leads where the results above say |
| NetworkRuns.BadRunIsStale | hw3_pthreads/main.c:46-54 | a run of the code as it stands that stops short, or in which the consumer receives something other than the merge, contains a stale read |
| NetworkRuns.CountsBounded | hw3_pthreads/main.c:40-54 | how many values each stream can ever carry |
| NetworkRuns.TokensBounded | hw3_pthreads/streams.c:121-156 | every value put, counted or about to be put lies between 1 and 299 |
| NetworkAsIs.AdvanceKeepsRawNetInv | hw3_pthreads/main.c:40-54 | every action of the code as it stands, stale reads included, keeps count of how many values are in each stream and in the hands of each process |
| NetworkAsIs.SuccessorBound | hw3_pthreads/streams.c:58-93 | the successor is never more than five values ahead of the mean of its two readers |
| NetworkAsIs.EveryScheduleOfTheCodeEnds | hw3_pthreads/main.c:46-54 | every schedule under every guard has at most 11 actions for each value the consumer asks for, and 134 more: 244 for main.c |
| NetworkRace.WhereStaleReadsLurk | hw3_pthreads/main.c:40-44 | only the successor's stream can see a stale read, and exactly from a reader that is up to date while the other is five values behind |
| NetworkRace.UnreadIsLost | hw3_pthreads/streams.c:36-103 | a stale read of one consumer counts as the other's read, so the putter stores over a value that the other never saw; the other reads the new value in its place or, if it is not past its first wait, does not get past it |
| NetworkRace.NetworkCanDeadlock | hw3_pthreads/main.c:40-54 | from every start, and whatever the consumer asks for, the network as it stands has a schedule after which no thread can act and the consumer has nothing |
| NetworkRace.StopsShortIff | hw3_pthreads/main.c:46-54 | some run of the code as it stands stops with the consumer short of what it asks for exactly when it asks for at least one value |
| NetworkRace.NetworkCanRepeat | hw3_pthreads/main.c:40-54 | from every start the network as it stands has a schedule in which times7 reads 1, 2, 3, 4, 5, 1 from the successor, times5's first value is 6, and the consumer's first value is 7 |
| NetworkRace.WrongIff | hw3_pthreads/main.c:46-54 | some run of the code as it stands gives the consumer something other than the sorted merge exactly when it asks for at least one value |
| Processes.Channel.constructor | hw3_pthreads/streams.c:227-240 | a stream that nothing has gone through, with an empty record |
| Processes.Channel.PassFirst | hw3_pthreads/streams.c:35-39 | a consumer gets past the first wait exactly as the protocol's step says |
| Processes.Channel.ReadNext | hw3_pthreads/streams.c:41-73 | past the second wait it reads the protocol's value and leaves the protocol's next state |
| Processes.Channel.PassSemaphore | hw3_pthreads/streams.c:83-84 | a putter takes one permit |
| Processes.Channel.StoreNext | hw3_pthreads/streams.c:86-108 | a putter with a permit leaves the protocol's next state |
| Processes.Channel.Get | hw3_pthreads/streams.c:22-74 | the next action of a `get` is the protocol's, and tells whether a value was read |
| Processes.Channel.PutNext | hw3_pthreads/streams.c:76-111 | the next action of a `put` is the protocol's, and tells whether the value was stored |
| Processes.SuccessorProcess.Act | hw3_pthreads/streams.c:121-128 | the loop puts its counter and counts on only once it is stored |
| Processes.TimesProcess.ActGetting | hw3_pthreads/streams.c:148-153 | the loop reads from its one producer and holds the product with its factor |
| Processes.TimesProcess.ActPutting | hw3_pthreads/streams.c:154-156 | it puts what it holds and reads again only once that is stored |
| Processes.MergeProcess.ActFirst | hw3_pthreads/streams.c:176-182 | the value from the first producer replaces the one that was put |
| Processes.MergeProcess.ActSecond | hw3_pthreads/streams.c:177-187 | the value from the second producer replaces the one that was put |
| Processes.MergeProcess.ActChoose | hw3_pthreads/streams.c:180-187 | the lesser value is put, the second of equal ones, and only its side is read next |
| Processes.ConsumerProcess.Act | hw3_pthreads/streams.c:205-215 | the loop reads while it has counted fewer than ten |
| Program.Running.constructor | hw3_pthreads/main.c:50-54 | five processes that have not begun, each with the producers that its stream is connected to, on four streams that share nothing |
| Program.Running.ActSuccessor | hw3_pthreads/main.c:50 | an action of the successor's object is the network's step for it; every struct, record and local still agrees afterwards, on all four streams |
| Program.Running.ActTimes5Getting | hw3_pthreads/main.c:51 | so is an action of times5's object that reads |
| Program.Running.ActTimes5Putting | hw3_pthreads/main.c:51 | so is an action of times5's object that puts |
| Program.Running.ActTimes7Getting | hw3_pthreads/main.c:52 | so is an action of times7's object that reads |
| Program.Running.ActTimes7Putting | hw3_pthreads/main.c:52 | so is an action of times7's object that puts |
| Program.Running.ActMergerChoose | hw3_pthreads/main.c:53 | so is an action of the merger's object that puts |
| Program.Running.ActMergerFirst | hw3_pthreads/main.c:53 | so is its reading from times5 |
| Program.Running.ActMergerSecond | hw3_pthreads/main.c:53 | so is its reading from times7 |
| Program.Running.ActConsumer | hw3_pthreads/main.c:54 | so is an action of the consumer's object |
| Program.Running.Act | hw3_pthreads/main.c:50-54 | so is an action of any of the five, under each of the three guards |
| Program.Running.Run | hw3_pthreads/main.c:50-54 | the objects act through every legal schedule, of the code as it stands too, as the network of values does |
| Program.Running.RunDelivers | hw3_pthreads/main.c:46-54 | every schedule of the objects, of the code as it stands too, is over within 244 actions; in those that deliver to every stream's consumers once and in order the consumer has the first values of the sorted merge, and has counted all ten when no thread can act any more |
| MainNetwork.ConnectMerger | hw3_pthreads/main.c:40-42 | the merger reads first from times5 and then from times7, the consumer from the merger |
| MainNetwork.ConnectSuccessor | hw3_pthreads/main.c:43-44 | times5 and times7 are the successor's consumers 0 and 1 |
| MainNetwork.BuildNetwork | hw3_pthreads/main.c:28-44 | the five streams as main.c leaves them before it starts its threads: connected as said, and the four that are written to share neither structs nor arrays |
| MainNetwork.StartProcesses | hw3_pthreads/main.c:50-54 | five processes that have not begun, on those streams, stand for a start of the network, with every struct as its record says |
| MainNetwork.Launch | hw3_pthreads/main.c:28-54 | so does everything main.c does before the first put |
| MainNetwork.RunMain | hw3_pthreads/main.c:28-54 | the whole program, from its first line through every schedule, ends, and delivers under the same condition; without stale reads it always meets it |

## Left out

- A token is an integer, not a pointer to one: that a process passes on the pointer it received is not modelled.
- The linked list of `producer_t` is a sequence of objects; its `prev` and `next` pointers are not modelled.
- NetworkRuns.EveryRunDelivers: without the joint guard a consumer that wants more than 53 values is proved to get at least 53, with at most 66 values merged, not exactly how many: that depends on the schedule.
- NetworkRuns.EveryScheduleIsSafe: for schedules without a stale read; after one the invariant can fail, see `WrongIff`.
- NetworkRuns.StuckOnlyAtTheEnd: about states that a run without stale reads reaches; a process that could only read stale counts as unable to act there. `StopsShortIff` is about the code as it stands.
- NetworkRuns.EveryScheduleEnds: for schedules without a stale read, with a bound that does not depend on the consumer; `EveryScheduleOfTheCodeEnds` is for all, with one that does.
- Program.Running.Act: reads of the consumer past its tenth value are excluded, since its loop has ended.
- Buddy.Heap.BMalloc: always returns a node; `_buddy_alloc` does not look at the result, so a failure there is undefined in C.
- VmmDevice.Device.Write: a write that would leave the pool altogether, past its last byte, is undefined in C and excluded.
- VmmDevice.Device.Ioctl: such writes are excluded, and requests below one byte while a leaf is FREE, which never return (`AllocEndsIff`).
- VmmDevice.Device.IoctlAll: for runs of such calls.
- `stream_disconnect`, and `stream_connect` while values are being put: the code does not do what its documentation says there, and main.c does not use them.
- Which waiter a signal wakes, `pthread_cancel` and fairness: the results are about safety and about which threads' conditions hold.
- `buddy_init` called a second time, module load and unload, ioctl numbers, and faults in `get_user` and `put_user`.
- `_buddy_print`, `tprintf`, delays, stream ids, `kill_stream`, and the allocation of tokens: no bearing on the properties.
- The GTK front end, the loopback driver, the FUSE file system and the battery monitor: system calls and single expressions.
