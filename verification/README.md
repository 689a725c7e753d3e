# p2malloc in Dafny

A model of the power-of-2 slab allocator of `p2malloc.c` and of the intrusive circular list of `ps_list.h`
that holds its free blocks, with proofs of what they promise: for one thread as a class whose methods write
memory word by word, and for any number of threads as a step relation with an invariant over every run.

The memory is one flat map from addresses to bytes (`Bytes`). A free block and a live block overlay each other:
the same sixteen bytes hold list links or a header, and which of the two they hold is a theorem, not a type.
List pointers are addresses stored in that memory and the sentinels lie outside all pages. Integers that the
program keeps in a `size_t` wrap modulo 2^64 explicitly.

| file | what it holds |
|---|---|
| `Bytes`, `Extents`, `Os`, `Collections` | words in flat memory; disjoint extents and sums over them; the contract of `os_alloc`, `os_free`, `memset`, `memcpy`; set and map witnesses |
| `Sizes` | `page_align`, `get_freelist_idx`, block sizes, the overflow guards |
| `PsList`, `ListOps`, `Ram` | list shape in flat memory and its operations as relations; the methods that perform them on a mutable memory |
| `Slabs` | one size class: free list, blocks handed out, pages, the three runs A + D + B, peak; claim, carve, pop, put |
| `Heaps`, `HeapSteps`, `HeapRegions` | the whole heap with its ownership and the invariant `HeapInv`; the elementary steps, each of which keeps it and is quiet about everything else |
| `AllocSpec`, `AbstractHeap` | the calls as functions of what the allocator can see; the allocator as clients see it, contents of blocks by address |
| `Allocators` | the class: `p2malloc`, `p2free`, `p2calloc`, `p2realloc`, `p2reset`, the counters, initialisation |
| `Threads`, `ThreadInvariant` | program counters and atomic steps of any number of threads; the invariant and non-interference |
| `ThreadSteps`, `ThreadCallSteps`, `ThreadSlabSteps`, `ThreadBlockSteps`, `ThreadFinishSteps` | one lemma per step: it keeps the invariant and has the effect clients see |
| `ThreadRuns`, `ThreadRefinement` | every step keeps the invariant; `p2reset`; runs; refinement of the abstract allocator |
| `ThreadSafety`, `ThreadEpochs`, `ThreadMeasures`, `ThreadProgress` | safety in every reachable state; what lasts between and beyond resets, and that no region is lost; which calls can be made, how much they map, when, and which block they get; no deadlock, every call ends |
| `Trims`, `ThreadRenewal` | memory, heap and threads without the regions a reset has given up; a run that follows a reset is a run of a new process |

## How the pieces fit

`Heaps.Heap` is memory together with who owns what: `live` blocks, blocks in the `hands` of a call, the slab of
each class, the regions obtained from the OS, the sizes counted in `allocated` (`acc`) and the regions counted in
`totmem` (`regs`). `HeapInv` says that extents are disjoint, that every carved block is free, in hands or live,
that the lists in memory are circular lists with exactly the free blocks of the class, that live headers hold
what the allocator recorded, that each counter is the exact sum over what is counted, that the word zeroed by
`p2free` is still zero, that the mapped bytes are exactly those there were at the start (`fixed`) and those of the
regions obtained from the OS and not given back (`os`), and that behind each such region stands a page of a class or
a large block, live or in hands, unless a reset has given it up; a large block is whole pages with less than one to
spare. Each elementary step has a lemma that it keeps `HeapInv` and is `Quiet` about all other
blocks and classes. The class strings these steps together with loops and real writes; the thread model takes them
one at a time with other threads in between.

The thread model has one program counter per thread (`Threads.Pc`). A step is a lock operation, an atomic counter
update, an OS call, the compare-and-swap or the store of `init_state`, a list operation under its lock, or a write
to memory that only that thread may touch. `ThreadInvariant.Inv` ties each program counter to the block in hands,
the lock and the live block under `p2realloc`; `ThreadInvariant.Rely` shows that a step within its own footprint
leaves every other thread's assertion true. A run
(`ThreadRuns.Run`) starts with static data and no memory, and goes on by steps of threads, writes of clients to their
own blocks and resets between calls, in any order.

Two properties one might expect do not hold of the code, and the model follows the code. The free list is not in
ascending address order (README.md:24 and the comment at p2malloc.c:167 say it is): a fresh page is pushed front
first and reads descending. `Slabs.SortedIffCarveUsedUp` gives the exact condition, `Slabs.FreshPageUnsorted` the
failing case. And `p2realloc` calls `get_freelist_idx` without the overflow guard (p2malloc.c:298), so a block of
the smallest class can be "resized" to almost 2^64 bytes: `Allocators.ReallocRoom` gives the exact condition,
`Allocators.ReallocOverclaims` the input, and the contract of
`Allocators.Allocator.Realloc` the bytes and the counter that the code then leaves. The README of the repository also names `__BIGGEST_ALIGNMENT__`; the code
aligns to `max_align_t`, 16 here.

## Model

| member | source | states |
|---|---|---|
| `Sizes.ClassIsSmallestFit` | p2malloc.c:152-164 | For every size past the overflow guard, the class picked is the smallest whose block holds size + 16, and -1 exactly if none does |
| `Sizes.ClassFitsIffNoWrap` | p2malloc.c:154-163 | Without the guard the class is a fit exactly when size + 16 does not wrap; a wrapped sum always picks class 0 |
| `Sizes.PageAlignIsLeast` | p2malloc.c:90-93 | `page_align` is the least page multiple not below n, or exactly 0 when that is no `size_t` |
| `Sizes.PageAlignTight` | p2malloc.c:90-93 | What is mapped for a large request is whole pages, enough for header and request, with less than a page to spare |
| `Sizes.CallocGuard` | p2malloc.c:283 | The division guard rejects exactly the products above SIZE_MAX |
| `Sizes.BlockSizes` | p2malloc.c:99-107 | Block sizes are 2^5 to 2^12, strictly growing, and 2^(7-i) of them fill a page exactly |
| `Sizes.BlocksApart` | p2malloc.c:228 | Different multiples of a block size start blocks that share no byte |
| `Sizes.BlockInPage` | p2malloc.c:228 | A multiple of a block size is a whole 16-aligned block inside one page |
| `PsList.InitIsEmpty` | ps_list.h:44-46 | A cell linked to itself is the empty list |
| `PsList.EmptyTest` | ps_list.h:52-58 | The empty test answers yes exactly for the empty sequence; otherwise first and last are the ends of the sequence |
| `PsList.AddInserts` | ps_list.h:61-68 | Adding after any cell of a well-formed ring, the sentinel and the singleton included, inserts into the sequence there and keeps the ring well-formed |
| `PsList.RemoveDeletes` | ps_list.h:71-77 | Removing a cell deletes it from the sequence, leaves it linked to itself and keeps the ring well-formed |
| `PsList.AddAllowed` | ps_list.h:61-68 | Every position of a well-formed ring admits a cell off the ring: the four words written are mapped and alias only as the proof of the splice allows |
| `PsList.RemoveAllowed` | ps_list.h:71-77 | Every cell of a well-formed ring can be unlinked, also when its neighbours coincide |
| `PsList.ListFrame` | ps_list.h:34-40 | A ring whose cells keep their bytes is the same list |
| `PsList.PushFront` | p2malloc.c:230-231 | init and head_add put the block at the front of the sequence |
| `ListOps.ListInit` | ps_list.h:44-46 | Two stores that link a cell to itself and write nothing else |
| `ListOps.ListAdd` | ps_list.h:61-68 | The four stores in their order produce the splice, whatever coincides |
| `ListOps.ListRemove` | ps_list.h:71-77 | The stores in their order unlink the cell and link it to itself |
| `ListOps.OrderedInsert` | p2malloc.c:174-194 | On any list, sorted or not, the walk ends and the node is inserted at `InsertPos`, the rest untouched |
| `Slabs.InsertPosUnique` | p2malloc.c:185-193 | The position is the only one with all later addresses above the node and the address before it not above it |
| `Slabs.InsertKeepsAscending` | p2malloc.c:166-194 | On a strictly ascending list the insertion is strictly ascending |
| `ListOps.Drain` | ps_list.h:130-134 | foreach_del with removal visits every node once, in order, and leaves the list empty |
| `Ram.Ram.OsAlloc` | p2malloc.c:51-56 | NULL, or a fresh page-aligned region disjoint from everything mapped, and nothing else mapped; NULL for 0; the request and answer are recorded |
| `Ram.Ram.OsFree` | p2malloc.c:58-61 | Exactly the region's bytes are unmapped |
| `Ram.Ram.Zero` | p2malloc.c:267 | memset: the range reads 0, nothing else changes |
| `Ram.Ram.Copy` | p2malloc.c:307 | memcpy of two ranges that do not overlap: the destination reads as the source did, nothing else changes |
| `Slabs.ClaimInv` | p2malloc.c:224-227 | A page claimed for an empty list keeps the class invariant: partition of the carved blocks, three runs, high-water bound |
| `Slabs.CarveInv` | p2malloc.c:228-232 | One turn of the carve loop keeps the class invariant |
| `Slabs.PopInv` | p2malloc.c:235-237 | Taking the first block keeps the class invariant |
| `Slabs.PutInv` | p2malloc.c:275-277 | An ordered insert of any block handed out keeps the class invariant |
| `Slabs.PutSide` | p2malloc.c:185-193 | The scan never stops inside the untouched rest D of a carve: above its base it stops in B, below it in A |
| `Slabs.SortedIffCarveUsedUp` | p2malloc.c:166-173 | A free list is ascending exactly when at most one block of the latest carve is left, always for class 7 |
| `Slabs.FreshPageUnsorted` | p2malloc.c:228-232 | After a refill the list is ascending only for class 7 |
| `Slabs.LowestFirst` | p2malloc.c:235-237 | Once the carve is used up the first block is the lowest free address |
| `Slabs.HighWater` | p2malloc.c:224-233 | Pages ever claimed are the recorded peak divided by the blocks per page and rounded up; `ThreadEpochs.PeakIsMax` shows what the recorded peak is |
| `Slabs.PeakSteps` | p2malloc.c:224-277 | Claiming, carving, taking and putting back keep the recorded peak the larger of what it was and the blocks now out |
| `Slabs.ClaimOnlyWhenFull` | p2malloc.c:224-225 | When a page is asked for, every block of the class is out, and as many as ever: fill, drain and fill again takes no page |
| `Slabs.Conservation` | p2malloc.c:228-237 | Blocks per page times pages is free plus out |
| `Slabs.CarveAllTiles` | p2malloc.c:228-232 | The carve loop from any point leaves the page tiled without a gap |
| `Slabs.RefillTiles` | p2malloc.c:225-232 | For every class and page base the loop leaves exactly 2^(7-i) blocks, one block size apart, from the last block down to the page base |
| `HeapSteps.PopStep` | p2malloc.c:235-237 | Unlinking the first block keeps the whole heap invariant, and no other held block, class or count changes |
| `HeapSteps.PutStep` | p2malloc.c:275-277 | The ordered insert keeps the whole heap invariant, and nothing else changes |
| `HeapSteps.CarveStep` | p2malloc.c:229-231 | One turn of the carve loop keeps the whole heap invariant, and no held block changes |
| `HeapSteps.SpliceTrips` | p2malloc.c:115-120 | Link writes land only in bytes 0 to 15 of free blocks and in sentinels: every zeroed word stays zero |
| `HeapSteps.HandWrite` | p2malloc.c:240-242 | A write inside a block in hands keeps lists, headers of all live blocks and zeroed words |
| `HeapSteps.ClientWrite` | p2malloc.h:22-25 | A client's write to its payload keeps the whole invariant |
| `HeapSteps.ResizeStep` | p2malloc.c:301 | A header rewritten for a size of the same class keeps the whole invariant: the class of every live header is the class of its block |
| `HeapSteps.CountStep` | p2malloc.c:215 | The add to `allocated` does not wrap and keeps it the exact sum |
| `HeapSteps.UncountStep` | p2malloc.c:263 | The subtraction from `allocated` does not underflow and keeps it the exact sum |
| `HeapSteps.CountPageStep` | p2malloc.c:227 | The add of a page to `totmem` does not wrap and keeps it the exact sum |
| `HeapSteps.UncountRegionStep` | p2malloc.c:257 | The subtraction of a region from `totmem` does not underflow and keeps it the exact sum |
| `HeapRegions.ClaimStep` | p2malloc.c:225-226 | A fresh page becomes whole blocks of its class, disjoint from all extents there are |
| `HeapRegions.LargeStep` | p2malloc.c:211 | A fresh large region is disjoint from all extents, pages and blocks |
| `HeapRegions.ReleaseStep` | p2malloc.c:258 | Unmapping a large block in hands leaves all other bytes, lists and counts |
| `HeapRegions.HeadStep` | p2malloc.c:129-130 | Initialising a sentinel gives an empty list and touches nothing else |
| `HeapRegions.BlockInRegion` | p2malloc.c:200-245 | Every held slab block lies inside one page, which is a page of its own class; every held large block is a region of its own; both 16-aligned and never in a region given up by a reset |
| `HeapRegions.LargeAvoidsPages` | p2malloc.c:209-217 | A large block shares no byte with a slab page of any class |
| `HeapRegions.BlockAvoidsAbandoned` | p2malloc.c:315-328 | No held block shares a byte with a region mapped before the last reset |
| `HeapRegions.EpochApart` | p2malloc.h:29-40 | Between two heaps of which the later keeps what the earlier gave up - every method of the class ensures that - no held block of the later shares a byte with a region given up in the earlier; `ThreadEpochs.EpochsApart` states it for runs |
| `HeapRegions.AbandonInv` | p2malloc.c:315-328 | What a reset leaves satisfies the heap invariant |
| `AllocSpec.NullWhenRefused` | p2malloc.c:202-226 | Between calls `p2malloc` answers NULL exactly for size 0, for a size without room for its header, or when it has to ask the OS and is refused |
| `AllocSpec.AsksOnce` | p2malloc.c:202-226 | `p2malloc` asks the OS for nothing when the request is empty, too large or met by a free block; otherwise once, for one page or for whole pages with less than one to spare |
| `AllocSpec.ExactCounters` | p2malloc.c:312-313 | Between calls `allocated` is the sum of the live requested sizes and `totmem` is 4096 times the slab pages plus the regions of live large blocks |
| `AllocSpec.OutIsLive` | p2malloc.c:152-164 | Between calls the blocks a class has out are exactly the live blocks whose header size maps to that class |
| `AllocSpec.ExactClass` | p2malloc.c:224-233 | Between calls blocks per page times pages is free plus live, and pages are what the recorded peak needs |
| `Allocators.Allocator.constructor` | p2malloc.c:122-125 | Static data: no list, both counters zero, the view of a new allocator |
| `Allocators.Allocator.FreelistsInit` | p2malloc.c:127-134 | The loop initialises all eight sentinels and block sizes and nothing else |
| `Allocators.Allocator.EnsureInit` | p2malloc.c:136-146 | Idempotent; leaves the allocator ready with the same view and all held blocks |
| `Allocators.Allocator.CarvePage` | p2malloc.c:228-232 | The loop on real memory leaves exactly the carve of the specification; held blocks keep their bytes |
| `Allocators.Allocator.ClaimPage` | p2malloc.c:225-227 | One request to the OS; refused, nothing changes; granted, the page is claimed and counted |
| `Allocators.Allocator.Refill` | p2malloc.c:224-233 | An empty list after one request to the OS: unchanged if refused, else the page carved and counted |
| `Allocators.Allocator.PopFirst` | p2malloc.c:235-237 | The first free block unlinked in memory and taken in hands; all held blocks keep their bytes |
| `Allocators.Allocator.HandOut` | p2malloc.c:240-243 | Header, counter and publication of a block in hands |
| `Allocators.Allocator.MallocSlab` | p2malloc.c:220-244 | The slab path computes the specification, asks the OS exactly when the list is empty, and keeps every held block |
| `Allocators.Allocator.MallocLarge` | p2malloc.c:209-217 | The large path computes the specification, asks the OS once, and keeps every held block |
| `Allocators.Allocator.Malloc` | p2malloc.c:200-245 | NULL, with nothing changed, exactly for size 0, a size without room for its header, or a refusal of the OS when there is no free block; otherwise exactly one more live block, of the requested size, counted in `allocated`: the first free block of its class, else the highest of the page just mapped, or the region just mapped, counted in `totmem`. Every held block keeps its bytes; the pointer is 16-aligned, has room, and shares no byte with any other block or given-up region; the OS is asked as `AllocSpec.AsksOnce` says |
| `Allocators.Allocator.FreeLarge` | p2malloc.c:253-260 | Exactly this block ceases to be live and goes back to the OS: exactly its bytes are unmapped, its region is no longer among those obtained, both counters lose its sizes; every other block keeps its bytes |
| `Allocators.Allocator.FreeSlab` | p2malloc.c:262-277 | Exactly this block ceases to be live, `allocated` loses its size, and the list of its own class gains it and nothing else, its word zeroed; every other block keeps its bytes |
| `Allocators.Allocator.Free` | p2malloc.c:247-278 | NULL changes nothing; of a live block what `FreeLarge` or `FreeSlab` says, by its header |
| `Allocators.Allocator.Calloc` | p2malloc.c:280-287 | With the true, unbounded product of the arguments: NULL exactly for product 0, a product without room for its header, or a refusal of the OS when there is no free block; otherwise all that `p2malloc` of the product does, with every byte of the product zero; beyond SIZE_MAX nothing changes and nobody is asked |
| `Allocators.Allocator.ResizeInPlace` | p2malloc.c:298-303 | For every size of the same class only the size word is written, with the new size, and the counter moves by the difference modulo 2^64; the state is sound and every other block untouched when the size has room for its header or the class is not 0 |
| `Allocators.Allocator.CopyPayload` | p2malloc.c:307 | The copy stays inside both blocks, which are disjoint, and changes no other block |
| `Allocators.Allocator.Realloc` | p2malloc.c:289-310 | For NULL and every live block, to any size. NULL: all that `p2malloc` does. Size 0: all that `p2free` does. A slab block to a size of its class: the same pointer, nobody asked, only the size and `allocated` changed. Otherwise: NULL and no change exactly if the size has no room for its header or the OS, asked without a free block, refuses; else a different pointer, with the effect of `p2malloc` followed by that of `p2free` of the old block, and the first min(old, new) bytes kept. On the calls that overclaim: the pointer passed, the size word overwritten and nothing else, `allocated` moved modulo 2^64, `totmem` as it was |
| `Allocators.ReallocRoom` | p2malloc.c:298-303 | Resizing in place leaves room for the new size exactly when the size has room for its header or the old class is not 0; moving, a size without room gets NULL |
| `Allocators.ReallocOverclaims` | p2malloc.c:298-303 | The failing input, on a new allocator given any page: 1 byte from `p2malloc`, reallocated to SIZE_MAX, keeps its 32-byte block and is recorded with SIZE_MAX bytes |
| `Allocators.LiveFacts` | p2malloc.c:87 | The header in memory of a live block is what was recorded; `alloc_size` is non-zero exactly for large blocks |
| `Allocators.Allocator.Allocated` | p2malloc.c:312 | The sum of the live requested sizes |
| `Allocators.Allocator.TotalMemory` | p2malloc.c:313 | 4096 times the slab pages plus what live large blocks map |
| `Allocators.Allocator.Reset` | p2malloc.c:315-328 | From any state between calls, initialised or not: the view of a new allocator, on which all later results depend; every region mapped so far is given up and stays mapped |
| `AbstractHeap.AbsRealloc` | p2malloc.c:289-310 | What the heap changes amount to for clients: one block with the common prefix of the contents, every other block as it was |
| `AbstractHeap.QuietIsStutter` | p2malloc.c:200-310 | A step that is quiet about everything but a block that is not live changes nothing for clients |
| `ThreadInvariant.Rely` | p2malloc.c:200-310 | A step of one thread inside its footprint leaves every other thread's assertion about its block, lock and header true |
| `ThreadInvariant.Keep` | p2malloc.c:200-310 | Such a step that leaves its own thread in order keeps the invariant of all threads |
| `ThreadSlabSteps.KeepAskPage` | p2malloc.c:225-226 | Asking for a page under the lock, granted or refused, keeps the invariant and is invisible |
| `ThreadSlabSteps.KeepCarve` | p2malloc.c:228-232 | A turn or the end of the carve loop under the lock keeps the invariant and is invisible |
| `ThreadSlabSteps.KeepPop` | p2malloc.c:235-237 | Taking the first block under the lock keeps the invariant and is invisible |
| `ThreadSlabSteps.KeepInsert` | p2malloc.c:276 | The ordered insert under the lock keeps the invariant and is invisible |
| `ThreadCallSteps.KeepCas` | p2malloc.c:139-144 | The compare-and-swap, won or lost, keeps the invariant |
| `ThreadCallSteps.KeepHeads` | p2malloc.c:127-134 | The winner initialises the next sentinel and disturbs nobody |
| `ThreadCallSteps.KeepTurn` | p2malloc.c:222-238 | Taking or releasing a lock keeps the invariant; a lock is released only with its list in order |
| `ThreadCallSteps.KeepFails` | p2malloc.c:305-306 | NULL: the lock, if any, is released and the block a realloc works on is as it was |
| `ThreadCallSteps.KeepBeginRealloc` | p2malloc.c:294-298 | Reading the header of a block nobody else works on and choosing the way keeps the invariant, which says which way it is (`ThreadRefinement.ReallocPlaces`), and is invisible |
| `ThreadBlockSteps.KeepHeader` | p2malloc.c:240-242 | The header written outside the lock keeps the invariant |
| `ThreadBlockSteps.KeepUsed` | p2malloc.c:243 | The add to `allocated` outside the lock keeps the invariant |
| `ThreadBlockSteps.KeepFreeStart` | p2malloc.c:251-262 | The first step of `p2free` takes exactly its argument from the clients and keeps the invariant |
| `ThreadBlockSteps.KeepFreeUsed` | p2malloc.c:253-263 | The subtraction, by whichever thread frees, keeps the invariant |
| `ThreadBlockSteps.KeepWipe` | p2malloc.c:267-270 | The tripwire, and a class between 0 and 7 that is the block's own: the assertion of the source never fails |
| `ThreadBlockSteps.KeepUnmap` | p2malloc.c:258 | Giving a large block back keeps the invariant |
| `ThreadFinishSteps.KeepFinish` | p2malloc.c:284-286 | The return of `p2malloc` or `p2calloc` adds exactly one block for clients, zeroed for `p2calloc` |
| `ThreadFinishSteps.KeepResizeSet` | p2malloc.c:301 | The header write in place is the abstract realloc: new size, same contents |
| `ThreadFinishSteps.KeepMove` | p2malloc.c:305-309 | The copy into the new block is the abstract realloc: common prefix kept, old block gone, all others untouched |
| `ThreadRuns.StepKeeps` | p2malloc.c:200-310 | Every step of every thread keeps the invariant, and clients see of it the effect of one call or nothing |
| `ThreadRefinement.Refines` | p2malloc.c:200-310 | Every step of every thread is a step of the abstract allocator: each call takes effect once, atomically, between invocation and return; the effect of `p2malloc`, `p2calloc` and `p2realloc` is on the block 16 below the very pointer they return; a `p2realloc` to a size of the class of its slab block returns the block itself, never NULL, and any other returns another block; `p2free` releases the block it was given and no other; NULL comes without effect and only when the OS has refused |
| `ThreadRefinement.ReallocPlaces` | p2malloc.c:294-305 | In every reachable state a `p2realloc` under way is on its way through `p2malloc` exactly if its block is large or the new size is of another class than the block's |
| `ThreadRefinement.StaysBegun` | p2malloc.c:298 | A `p2realloc` invoked on a slab block with a size of its class goes on in place |
| `ThreadRefinement.StaysAlone` | p2malloc.c:298-303 | Every later step of such a call leaves all lists, pages, regions and locks as they were, writes at most the size word of its block, and the last returns its pointer |
| `ThreadRefinement.RunRefines` | p2malloc.c:200-328 | Every run of the threads, with clients writing to their blocks and with resets, is a run of the abstract allocator from no block |
| `ThreadRuns.ResetKeeps` | p2malloc.c:315-328 | `p2reset` with no call under way, initialised before or not, keeps the invariant of all threads |
| `ThreadRuns.ResetIsNew` | p2malloc.c:315-328 | After a reset the allocator sees what a new one sees, clients have no block, and every region mapped so far is given up and still mapped |
| `ThreadRuns.ClientKeeps` | p2malloc.h:22-25 | A client's write to its own block disturbs no call and no other block |
| `ThreadRuns.RunKeeps` | p2malloc.c:122-328 | The invariant holds in every state of every run, for any number of threads, any schedule and any number of resets |
| `ThreadSafety.OnePlace` | p2malloc.c:200-310 | In every reachable state a carved block is in exactly one of the free list of its own class, the hands of exactly one thread, the live blocks of its class |
| `ThreadSafety.AllApart` | p2malloc.c:200-310 | In every reachable state no two blocks share a byte; a free block and a held slab block are whole blocks of a page of their own class; a held large block is a region of its own and shares no byte with any page; every pointer is 16-aligned |
| `ThreadSafety.ListsWhole` | p2malloc.c:222-277 | In every reachable state each list is well-formed and of the form A + D + B with its zeroed words zero; with the lock free, blocks per page times pages is free plus out, and pages are what the recorded peak needs |
| `ThreadSafety.OneLock` | p2malloc.c:222-277 | A thread holds at most one lock, inside a critical section, none between calls |
| `ThreadSafety.InitialisedFirst` | p2malloc.c:136-146 | At most one thread initialises, and none is past `ensure_init` before all eight lists are ready |
| `ThreadSafety.InitOnce` | p2malloc.c:139 | In a whole run, resets included, `init_state` leaves 0 once: at most one thread wins the compare-and-swap |
| `ThreadSafety.NullIsRefusal` | p2malloc.c:225-226 | The place where a slab call returns NULL is reached only from a refused request for a page, which has changed nothing |
| `ThreadSafety.CounterSum` | p2malloc.c:215-300 | In every reachable state `allocated` is the sum over exactly the blocks whose add has happened and whose subtraction has not, each with the size that was added - the header's, or in a resize the old or the new one - and `totmem` is the sum of the bytes of exactly the counted pages and large regions |
| `ThreadSafety.CountersExact` | p2malloc.c:215-300 | Every atomic add and subtraction of every run is exact: none wraps or underflows |
| `ThreadSafety.BetweenCalls` | p2malloc.c:312-313 | When no call is under way both counters are exact, blocks per page times pages is free plus out, and pages are what the recorded peak needs |
| `ThreadEpochs.EpochIsNew` | p2malloc.c:315-328 | Every epoch, the first and any after a reset, starts with the view of a new allocator |
| `ThreadEpochs.GivenForGood` | p2malloc.h:29-40 | A region given up by a reset stays given up and mapped, whatever follows |
| `ThreadEpochs.NothingLost` | p2malloc.c:211-258 | In every reachable state a byte is mapped exactly if it was when the process started or lies in a region obtained from the OS and not given back, and every such region not given up by a reset is a page of a class, a live large block or a large block in hands: no `p2free` of a large block keeps its memory |
| `ThreadEpochs.TotalIsMapped` | p2malloc.h:33-40 | When no call is under way `totmem` is the bytes of exactly the regions mapped since the last reset and not given back |
| `ThreadEpochs.EpochsApart` | p2malloc.h:29-40 | Whatever happens after a reset, no block, free, live or in hands, ever shares a byte with a region mapped when the reset was made |
| `ThreadEpochs.PeakIsMax` | p2malloc.c:224-233 | In every state of an epoch the recorded peak of a class is the maximum, over all states of the epoch so far, of its blocks out |
| `ThreadEpochs.PagesMatchPeak` | p2malloc.c:224-233 | In every state of an epoch with lock i free, the pages claimed for class i are the largest number of its blocks ever out at once in the epoch, divided by the blocks per page and rounded up |
| `ThreadRenewal.TrimWorks` | p2malloc.c:200-310 | Every step of a thread or of a client, at any place of any call, is a step of the process that never had the regions given up: none of them is read, written or asked for |
| `ThreadRenewal.TrimReset` | p2malloc.c:315-328 | A later reset, with regions given up before it taken away, is the reset of a process that never had them |
| `ThreadRenewal.ResetRenews` | p2malloc.h:29-40 | Whatever came before a reset, every run that follows it, further resets included, is without the regions it gives up a run of a new process that starts with `p2reset`: same places of all threads, same pointers, same contents, lists, peaks and counters in every state |
| `ThreadMeasures.LargeTight` | p2malloc.c:210-217 | In every reachable state a live large block is a region of whole pages with room for its header and size and less than a page more, and its header says how long it is |
| `ThreadMeasures.HandTight` | p2malloc.c:210-258 | The same of a large block in the hands of a thread, from the write of its header until it is unmapped |
| `ThreadMeasures.AsksWhenFull` | p2malloc.c:224-225 | In every run a page is asked for only when the class has no free block and all blocks of its pages are out, as many as ever |
| `ThreadMeasures.TakesFirst` | p2malloc.c:235-237 | In every run a slab request gets the first block of the list of its class, the lowest free address once the latest page has been used up, and the list loses no other |
| `ThreadMeasures.LargeServed` | p2malloc.c:211-216 | Whatever region of that length the OS gives for a large request, the call takes it |
| `ThreadMeasures.PageServed` | p2malloc.c:225-227 | Whatever page the OS gives, the class takes it |
| `ThreadMeasures.MallocBegins` | p2malloc.c:200-207 | In every reachable state a thread between calls can call `p2malloc` or `p2calloc` for every size with room for its header |
| `ThreadMeasures.FreeBegins` | p2malloc.c:247-251 | It can free every live block that no other call works on |
| `ThreadMeasures.ReallocBegins` | p2malloc.c:289-305 | It can reallocate every such block to every size with room for its header, and goes on in place exactly for a slab block and a size of its class |
| `ThreadMeasures.ResetBegins` | p2malloc.c:315-328 | With no call under way `p2reset` can be called |
| `ThreadProgress.Progress` | p2malloc.c:136-277 | In every reachable state with a call under way some thread can make a step that is not waiting |
| `ThreadProgress.Enabled` | p2malloc.c:200-310 | A thread that waits for nothing can step: every read and write of its next step is to mapped memory |
| `ThreadProgress.CopyFits` | p2malloc.c:307 | The memcpy never overlaps and stays within both blocks, with other threads running |
| `ThreadProgress.StepWorks` | p2malloc.c:200-310 | Any step inside a call brings the calls under way closer to their ends |
| `ThreadProgress.CallsEnd` | p2malloc.c:200-310 | As long as no call begins and no client writes, the calls under way end after at most a computable number of steps, in whatever order they are taken |
| `ThreadProgress.OwnStepsBounded` | p2malloc.c:200-310 | From any point inside a call to any later point up to its return a thread makes at most as many steps of its own as its rank, whatever other threads and clients do meanwhile |
| `ThreadProgress.CallBounded` | p2malloc.c:200-310 | In every run every call returns after at most 4122 steps of its own, waiting not counted |

## Left out

- Allocators.Allocator.Realloc: on the calls on which the code itself overclaims (`Allocators.ReallocRoom` says exactly which) no sound state is promised, since there is none; the bytes, the pointer and the counters are.
- Allocators.Allocator.ResizeInPlace: promises no sound state after the same calls, for the same reason.
- ThreadCallSteps.KeepBeginRealloc: excludes the same calls, after which no invariant of the allocator holds.
- Allocators.Allocator.Reset: between calls only, as p2malloc.h:30 demands; blocks of an earlier epoch may not be passed to later calls.
- ThreadRenewal.ResetRenews: one direction; a new process can also be given memory that the old one still has mapped.
- ThreadRefinement.Refines: calls that return at once - size 0, NULL, an overflowing product, a size without room for its header outside the in-place path - take no step of the thread model; realloc of NULL and to size 0 are the calls they forward to.
- ThreadSlabSteps.KeepInsert: the walk of the ordered insert and the splice are one step, since both happen under the lock of the list; their loop and stores are modelled in `ListOps`.
- ThreadFinishSteps.KeepFinish: the product of `p2calloc` is formed before the first step of the thread model; `Allocators.Allocator.Calloc` states it.
- ThreadProgress.CallsEnd: waiting for a lock or for `init_state` is no step, so no fairness between waiting threads is stated.
- Client misuse: double free, foreign pointers, writes over a header and use of a block across a reset are excluded by precondition; a block passed to a call is not passed to another until it returns.
- Memory order: all atomics of the source are sequentially consistent and are single steps of an interleaving.
- `os_alloc` and `os_free` are their contract: NULL or a fresh page-aligned region; Windows and POSIX are not distinguished, and a region handed out is not assumed to be zero.
- Mutexes are atomic acquire and release; their initialisation has no effect in the model.
- Widths: 64-bit words, little-endian, a header of 16 bytes. Other header sizes are not modelled.
- The field `pow2` of a free node, which is never written, and the plain foreach loop over a list.
- The macros that replace the system allocator, the drivers `main.c` and `test_p2malloc.c` and the Unity framework.
