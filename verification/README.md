# Grace in Dafny

Grace runs a fork-join program as if its threads were executed one after the other.  Each
thread is a process; a process runs page-granularity transactions on a shared, versioned
store, and a chain of predecessors makes the processes commit in program order.  Underneath,
the library carries its own allocators: a boundary-tag allocator (dlmalloc 2.7.0), heaps of
segregated fits with a bitmap over their bins, and a best-fit heap over a treap.  This project
models these three parts and proves what they are for.

## What is modelled

**The protocol and the store.**  `Programs` gives fork-join programs and their serial
elision; a program is a deterministic tree whose continuations depend on the values read.
`Transactions` and `Protocol` give the private state of a process and a step machine in which
traps, version reads, data reads, the copies of single words, version bumps, lock, latch and
semaphore operations are separate steps of interleaving processes.  `OrderProof` keeps the
serial order and the predecessor chain, `TxnProof` what page sets, versions and private
copies say about the store, `SerialProof` the outcome of the remaining work; `Protection` says
which pages a process can access without a trap, in every run; `Rollback`,
`Progress` and `Discipline` hold the other theorems about runs, and `Counterexample` a run
that shows why one hypothesis is needed.  `Persistence` and `Latches` are the objects of the
program that these steps belong to, with arrays and sets updated in place; `Atomicity` proves
that a commit of the step machine does what one call of the store's commit does.

**The boundary-tag allocator.**  `DlHeap` describes a heap as chunks and lists, `DlTags` and
`DlLinks` how memory words represent it: size words with PREV_INUSE, feet, circular lists and
fastbins.  `DlSteps` to `DlTake` and `DlSystem` show for each kind of store what it does to both.
`DlCollect` and `DlChoice` say which heap a chunk that is given back leaves, and which chunk serves
a request with what heap afterwards, including the order of every list.
`DlSpace` compares heaps that cover the same memory, and `DlBreak` is the system that gives
memory: what it answers, and what becomes of top then.
The class `DlMalloc.Arena` is malloc_state with its memory; its methods make the stores of the
original, and a ghost field says which heap they represent.  `DlCarve`, `DlRealloc`, `DlAlign` and
`DlInfo` add realloc, memalign and mallinfo, `DlChecks` the allocator's own debugging
checks, and `DlClient` runs of arbitrary clients.

**The other heaps.**  `SegregatedFits` and `SizeClasses`: the bitmap search and the size classes
of two heaps.  `Trees`, `Treaps`, `CartesianHeaps`: the pointer structure of the treap with
rotations, and the heap over it.

## Assumptions

- Versions are unbounded, and process identifiers are distinct modulo the latch array.
- A run starts after initialisation, with every page protected.
- Serial equivalence, and that validated reads are current, assume that every transaction
  begins with all pages protected; the order of commits, their atomicity and the bound on
  rollbacks do not.  The comment at src/include/xmemory.h:80 says that `begin` resets
  protection, but the code only clears page sets, and a successful commit protects only the
  pages it dirtied.  The hypothesis therefore does not follow: `Protection.PagesOpen` says for every run which
  pages are accessible, `Discipline.DisciplineExact` exactly when
  it holds, `Counterexample.NotSerialWithoutProtection` shows a run in which it fails and the
  result is not the serial one, and `Discipline.WritersAreDisciplined` gives a condition on programs
  from which it follows.
- No two processes join the same thread (for `NoLostWakeUp` and `NoDeadlock`).
- The pointer through which `sync` returns a result is on the caller's stack; which pages are
  taken first from a page set is free; whether a spawn forks or is a direct call is free.
- The kernel's copy-on-write of a page is one step; a page without a private copy shows
  the shared contents of the moment.
- Memory words of the allocator are mathematical integers at word addresses.  Requests from
  2^32 - 32 bytes on are refused as in the code, and sbrk is not asked for sizes that are
  negative as signed numbers; other sums do not wrap around, except in memalign, where
  `DlAlign.PaddingFits` and `DlAlign.LoopEnds` say when that matters.
- The system answers from a script (`DlBreak`).  A request to sbrk is refused, or granted behind a
  gap that somebody else has taken, and the grant may be larger than what was asked for; gap
  and excess are any number of words.  Mapped memory lies below earlier mappings.  Nobody else
  takes memory between the two requests that make a new top, which
  src/source/dlmalloc.c:3042-3045 assumes as well.
- Not every such system is good for the program, although src/source/dlmalloc.c:4653-4697 allows
  it: after some answers the new top is off the alignment.  `DlBreak.LinedWhen` says exactly
  after which, `DlMalloc.Unaligned` and `DlMalloc.Overgranted` are two of them, and
  `DlMalloc.CrookedIsBroken` shows that no heap is represented any more.  The program goes on
  then; the model does not follow it further, and calls this state jammed.
- Memory that is obtained may still be too little: the second request may be refused, or the
  release of a large old top may trim the new one before it is used (`DlBreak.TrimmedAway`).
  `DlBreak.FallsShort` says that nothing else can happen.
- The comment at src/source/dlmalloc.c:3165 says that trimming keeps at least one page of top.
  The code keeps what remains of a page, as long as that is more than a minimum chunk
  (`DlBreak.TrimIsMost`).
- The test for a power of two in memalign is a predicate on numbers, not on bits.
- Stores of one operation that do not read each other's results may be made in another
  order than in the source.

## Model

| member | source | states |
|---|---|---|
| SerialProof.SerialEquivalence | src/include/xrun.h:210-306 | In every complete run of every program in which transactions begin with all pages protected, the final shared store and main's result are those of the serial elision. |
| SerialProof.StepKeepsInv | src/include/xrun.h:219-306 | Each step, of whichever process, keeps the outcome of the committed store followed by all remaining work in serial order. |
| Discipline.DisciplineExact | src/include/xpersist.h:224-228 | Where earlier transactions began protected, the transactions about to begin do so if and only if each process rolled back last or wrote every page it read. |
| Protection.PagesOpen | src/include/xpersist.h:333-374 | In every run, with no condition on protection: at the begin of a transaction exactly those pages are readable that commits of the process, or of the one it was forked from, have read without writing since the last null commit or rollback, and no page is writable; inside a transaction the dirtied pages are writable and those touched readable besides. |
| Protection.ProtectedWhenNothingLeft | src/include/xmemory.h:76-83 | In every run, transactions begin with all pages protected if and only if nothing is left readable in this sense. |
| Protection.NullEndsAtOnce | src/include/xrun.h:282-306 | A transaction ends without waiting if and only if it has neither read nor written a page. |
| Protection.NullCommit | src/include/xpersist.h:413-423 | After such an end every page is protected and no private copy is left; the predecessor and all that is shared stay as they were. |
| Discipline.SerialEquivalenceIfWritten | src/include/xpersist.h:367-371 | Serial equivalence of every run in which processes write every page they read before they begin another transaction. |
| Discipline.WritersAreDisciplined | src/include/xpersist.h:367-371 | If on every path of the program each page read is written before the next spawn, sync or end, then in all its runs all transactions begin with all pages protected. |
| Discipline.SerialEquivalenceOfWriters | src/include/xrun.h:210-306 | Serial equivalence of all runs of such programs, with no condition on the runs. |
| Counterexample.NotSerialWithoutProtection | src/include/xmemory.h:76-83 | A program, a store and a complete run whose result differs from the serial one, because a page read earlier stays readable and a stale value is read without a trap. |
| OrderProof.StepKeepsOrder | src/source/xthread.cpp:92-149 | Every step keeps the serial list: predecessors are immediate neighbours or 0 with all earlier processes gone, locks match phases, waits match predecessors. |
| OrderProof.ExitedPrefix | src/source/xthread.cpp:134-144 | The processes that have exited form a prefix of the serial order. |
| OrderProof.FirstLiveUnique | src/include/xrun.h:253-258 | At most one live process has all its predecessors gone. |
| TxnProof.StepKeepsTx | src/include/xpersist.h:197-358 | Every step keeps, for every process, what its page sets, versions and copies say about the store; only commit points change the committed store. |
| TxnProof.ValidationSound | src/include/xpersist.h:269-328 | When all versions agree under the locks, every value the transaction has read is in the store at that moment, and rerunning it from its beginning would end the same. |
| TxnProof.CommitPoint | src/include/xmemory.h:163-173 | At successful validation the committed store becomes the old one with exactly the dirtied pages replaced. |
| Atomicity.CommitIsAtomic | src/include/xpersist.h:333-374 | In every run, however its word copies and version bumps interleave with other processes and whatever was protected when transactions began, a commit changes store, versions and private state exactly as one call of commit does. |
| Rollback.RollsBackOnce | src/include/xrun.h:264-317 | In every run, whatever was protected when its transactions began, no transaction rolls back twice, and none rolls back after ensureIrrevocable has returned or after a rollback. |
| Rollback.FailsOnlyIfStale | src/include/xpersist.h:269-328 | In every run validation fails only if a page of the read set has got another version since it was recorded, and succeeds only if none has. |
| Rollback.RollsBackOnlyIfStale | src/include/xrun.h:264-317 | A transaction rolls back only then; it starts over from its beginning without private copies. |
| Rollback.ValidatedReadsAreCurrent | src/include/xmemory.h:146-151 | In every run in which transactions begin with all pages protected, a process that has compared its whole read set under the locks has only read values that are current. |
| Rollback.OnlyFirstCommits | src/include/xrun.h:282-306 | In every run the process that commits holds both locks and all processes before it have exited. |
| Progress.AtMostTwo | src/source/xthread.cpp:103-113 | At most two processes are ever blocked on one latch. |
| Progress.NoLostWakeUp | src/include/xlatch.h:50-64 | In every run the posts of an exited process suffice for everybody blocked on its latch. |
| Progress.NoDeadlock | src/source/xthread.cpp:64-73 | In every run, as long as main has not exited, some process can take a step. |
| Persistence.Region.RecordRead | src/include/xpersist.h:197-207 | Records the published version of the page of an address, and nothing outside the region. |
| Persistence.Region.RecordWrite | src/include/xpersist.h:210-220 | The page joins the dirtied and the read set. |
| Persistence.Region.Begin | src/include/xpersist.h:224-228 | Clears the page sets and leaves protection alone. |
| Persistence.Region.IsNop | src/include/xpersist.h:238-259 | True exactly when nothing was read or written. |
| Persistence.Region.IsConsistent | src/include/xpersist.h:271-328 | True exactly when every page read still has the recorded version. |
| Persistence.Region.Commit | src/include/xpersist.h:333-374 | Exactly the dirtied pages are published with the next version, lose their private copies and are protected; pages only read stay accessible. |
| Persistence.Region.UpdatePage | src/include/xpersist.h:439-447 | Drops one private copy and protects that page. |
| Persistence.Region.UpdateAll | src/include/xpersist.h:413-423 | Drops all private copies and protects every page. |
| Persistence.Memory.Begin | src/include/xmemory.h:76-83 | Both regions begin and the handler has seen no page. |
| Persistence.Memory.IsConsistent | src/include/xmemory.h:146-151 | Both regions are consistent; the locks are free again. |
| Persistence.Memory.TryToCommit | src/include/xmemory.h:163-173 | Commits both regions if both are consistent and otherwise changes nothing. |
| Persistence.Memory.Handle | src/include/xmemory.h:197-230 | The first fault on a page makes it readable and records its version, the next makes it writable and dirty; the other region is untouched. |
| Latches.Latch.Wait | src/include/xlatch.h:50-56 | Passes exactly when the flag or a post is there, and takes a post only when the flag is not. |
| Latches.Latch.Unlatch | src/include/xlatch.h:59-64 | Wakes everybody exactly when at most two sleep; the posts that nobody takes stay. |
| DlSizes.RequestFits | src/source/dlmalloc.c:1957-1960 | The padded size is the least aligned size that holds request and overhead, and never below the minimum. |
| DlSizes.RequestAgain | src/source/dlmalloc.c:3935-3935 | Asking for a padded size less the alignment mask gives the same padded size. |
| DlSizes.BinIndexRises | src/source/dlmalloc.c:2147-2156 | The bin index never falls when the size rises. |
| DlSizes.SmallBinExact | src/source/dlmalloc.c:2116-2146 | Chunks of one small bin have one size. |
| DlSizes.LargeBinSpacing | src/source/dlmalloc.c:2116-2146 | The sizes that each large bin holds: 64, 512, 4096, 32768 and 262144 bytes apart, and one bin for the rest. |
| DlTags.PrevTells | src/source/dlmalloc.c:1976-2007 | PREV_INUSE is clear exactly when a free chunk precedes, and prev_size leads to it. |
| DlLinks.UnlinkLinked | src/source/dlmalloc.c:2109-2114 | unlink at any place of a circular list leaves the list of the others. |
| DlLinks.LinkLinked | src/source/dlmalloc.c:3398-3401 | Linking between two neighbours inserts at that place. |
| DlSteps.AloneStep | src/source/dlmalloc.c:3434-3435 | Overwriting both unsorted links loses no chunk, because the list is empty then. |
| DlSteps.OpenStep | src/source/dlmalloc.c:3337-3347 | The sole unsorted chunk may be taken while the header still points to it. |
| DlSteps.UnlinkStep | src/source/dlmalloc.c:2109-2114 | Taking a chunk out of its bin keeps the whole invariant, all live payloads, and the bytes of the heap. |
| DlSteps.LinkStep | src/source/dlmalloc.c:3398-3401 | Binning a chunk between chunks in use keeps the whole invariant, all live payloads, and the bytes of the heap. |
| DlSteps.PushStep | src/source/dlmalloc.c:3627-3630 | So does putting a chunk on a fastbin. |
| DlCoalesce.BackStep | src/source/dlmalloc.c:3641-3647 | A free predecessor is found by prev_size, leaves its bin and is joined. |
| DlCoalesce.AheadStep | src/source/dlmalloc.c:3654-3658 | A free successor leaves its bin and is joined. |
| DlRelease.IntoTop | src/source/dlmalloc.c:3684-3689 | A chunk below top becomes part of it; top then starts there and borders no free chunk. |
| DlMalloc.Arena.InitState | src/source/dlmalloc.c:2385-2412 | A zero-filled state becomes a valid one with empty bins and fastbins. |
| DlMalloc.Arena.Coalesce | src/source/dlmalloc.c:3637-3689 | The chunk returned is joined with the free chunks at both ends, which leave their lists, and becomes the first unsorted chunk, or part of top if it borders top; no other chunk and no other entry of a list changes.  The invariant, every live payload and the bytes are kept. |
| DlMalloc.Arena.Consolidate | src/source/dlmalloc.c:3753-3848 | Every chunk of every fastbin, from the smallest size on and in the order of its list, is given back as by free; the fastbins are empty then, the flag is clear, the total is the same, and no live payload is touched. |
| DlMalloc.Arena.FREe | src/source/dlmalloc.c:3586-3736 | A chunk of at most max_fast keeps its place and size and becomes the first of the fastbin of its size, with nothing else changed; a larger one is joined with its free neighbours and becomes the first unsorted chunk or part of top; from 65536 bytes on all fastbins are merged then, and a large top is trimmed.  All other payloads are as they were; free(0) changes nothing. |
| DlMalloc.Arena.SysTrim | src/source/dlmalloc.c:3153-3207 | Top, the break and the bytes counted go down by exactly what the system takes back of the whole pages that top can spare; nothing else in the heap changes. |
| DlBreak.TrimIsMost | src/source/dlmalloc.c:3165-3166 | That is the largest number of whole pages that leaves more than a minimum chunk. |
| DlBreak.WantedIsLeast | src/source/dlmalloc.c:2894-2912 | What sbrk is asked for is the least number of whole pages with which the request and a minimum top are served. |
| DlMalloc.Arena.PlaceInBin | src/source/dlmalloc.c:3369-3402 | The last unsorted chunk moves to the place in the bin of its size that the order demands, with the bit set; nothing else changes. |
| DlMalloc.Arena.ScanUnsorted | src/source/dlmalloc.c:3325-3402 | Takes the last unsorted chunk of exactly the size asked for, or, for a small request and if it is the only one left, cuts the last remainder, with the chunks behind it in their bins; where there is neither, all chunks end in their bins in order. |
| DlMalloc.Arena.ScanBin | src/source/dlmalloc.c:3411-3443 | Hands out a smallest free chunk that fits, the last of those in its bin, or shows that no chunk up to this bin fits; the rest of it is the unsorted list. |
| DlMalloc.Arena.SearchBins | src/source/dlmalloc.c:3456-3529 | The bitmap search hands out a smallest free chunk that fits, the last of those in its bin, or no free chunk fits; the rest of it is the unsorted list, and the last remainder if the request is small. |
| DlTake.BestInBin | src/source/dlmalloc.c:3445-3449 | In the lowest bin that may hold a fit, the last chunk large enough is a smallest fit of all free chunks. |
| DlTake.PlaceFor | src/source/dlmalloc.c:3371-3395 | The search for a place keeps small bins in arrival order and large bins in descending order. |
| DlMalloc.Arena.UseTop | src/source/dlmalloc.c:3547-3559 | Serves from the front of top if and only if a minimum top remains; the rest is top, and no list changes. |
| DlMalloc.Arena.GetMemory | src/source/dlmalloc.c:2894-2969 | sbrk and then mmap are asked as the system's script says; what is obtained is clear of all chunks. |
| DlMalloc.Arena.Align | src/source/dlmalloc.c:2998-3063 | The new top starts at the offer or the next aligned place, ends behind the second grant or where memory ends, and lies in memory that is clear. |
| DlBreak.LinedWhen | src/source/dlmalloc.c:3009-3063 | A new top is aligned if and only if the excess of the first grant is, where the second is granted; the end of memory is, where it is refused; and the region itself is, where it is not taken to be contiguous. |
| DlBreak.FallsShort | src/source/dlmalloc.c:2923-2969 | Nothing is obtained if and only if both sbrk and mmap refuse; too little only if the rest of a region is refused or a new top is trimmed at once. |
| DlBreak.EvenDelivers | src/source/dlmalloc.c:2894-2924 | A system that only continues its memory delivers if and only if it has an answer left and room for what top lacks. |
| DlBreak.TidyLined | src/source/dlmalloc.c:4653-4697 | If memory comes in multiples of the alignment, every new top is aligned. |
| DlBreak.TrimmedAway | src/source/dlmalloc.c:3102-3134 | Answers with which all that is asked for is granted and the request still fails, because the new top is trimmed before it is used. |
| DlMalloc.CrookedIsBroken | src/source/dlmalloc.c:3065-3069 | Words whose top is off the alignment represent no heap whatever. |
| DlMalloc.Unaligned | src/source/dlmalloc.c:3048-3069 | With one grant a word behind the break, the first malloc leaves a state that represents no heap. |
| DlMalloc.Overgranted | src/source/dlmalloc.c:3036-3069 | So it does when a word more is granted than was asked for, and the second request too. |
| DlMalloc.Arena.FenceOff | src/source/dlmalloc.c:3080-3106 | The old top is closed by two fenceposts and its rest given back as by free, with no live chunk touched; the new top stays where it is and keeps its size unless that release trims it. |
| DlSystem.ReplaceStep | src/source/dlmalloc.c:3066-3106 | After a non-adjacent extension the regions stay tiled, the old top ends in a fence that nothing coalesces across, and the new top starts a region. |
| DlMalloc.Arena.SysMalloc | src/source/dlmalloc.c:2870-3140 | For every script of the system: jammed if and only if the new top is off the alignment; otherwise a chunk is returned if and only if what is dealt out suffices, exactly as large as asked for, at the start of the old top where that has grown and of the new one where it has been replaced; nothing live changes; steady systems fail only without answer or room. |
| DlMalloc.Arena.Search | src/source/dlmalloc.c:3323-3578 | The retry loop ends after at most two rounds; whenever something fits the request is served: by the unsorted chunk that `ScanUnsorted` takes, or else from the last smallest fit once all unsorted chunks are in their bins, or else from top; the system is asked only when everything is merged and nothing fits, and is left alone otherwise. |
| DlSpace.DepletedBefore | src/source/dlmalloc.c:3304-3308 | What does not fit after everything has been merged did not fit before, in free chunks, fastbins or top. |
| DlMalloc.FailsOnEmpty | src/source/dlmalloc.c:3214-3579 | A failed request had nothing that fits in the heap it started from. |
| DlMalloc.SteadyOutcome | src/source/dlmalloc.c:2894-2924 | With a system that only continues its memory, a request that nothing fits is served if and only if there is an answer left and room for what top lacks. |
| DlMalloc.Arena.MALLOc | src/source/dlmalloc.c:3214-3579 | Which chunk serves a request, and the heap and the last remainder afterwards: the first of the fastbin of its size; or the last of its small bin; or the last unsorted chunk of its size; or, for a small request, the last remainder as the only unsorted chunk; or the last smallest fit; or the front of top, old or new.  For a large request, or when nothing fitted before, this is searched in the heap in which all fastbin chunks have been given back and everything is merged.  The payload is aligned, holds the request, wastes less than a minimum chunk and overlaps no other; all other payloads are as they were.  0 is returned if and only if the request is out of range, or nothing fits and the system does not deliver, or jams the allocator. |
| DlChoice.OneFromUnsorted | src/source/dlmalloc.c:3327-3369 | There is at most one unsorted chunk that the search may take. |
| DlChecks.StatePasses | src/source/dlmalloc.c:2650-2760 | The allocator's own checks of chunks, bins and fastbins as walked through by their links, bitmap and top, on memory words, succeed in every valid state. |
| DlChecks.RangesExact | src/source/dlmalloc.c:2468-2480 | The address checks of a chunk succeed if and only if it lies below top and the bytes between it and the end of top that belong to no chunk are no more than those counted without being had, less those had without being counted. |
| DlChecks.RangesPass | src/source/dlmalloc.c:2462-2480 | The address checks succeed with every system that only continues its memory. |
| DlChecks.FreePasses | src/source/dlmalloc.c:2512-2545 | Every free chunk has a right foot, neighbours in use, and links that lead back to it. |
| DlChecks.InusePasses | src/source/dlmalloc.c:2552-2586 | Every chunk in use says so and lies between chunks that are in order. |
| DlRealloc.UserStep | src/source/dlmalloc.c:1904-1907 | Stores of a client into its payload, up to the word borrowed from the next chunk, harm no tag and no link. |
| DlRealloc.CopyWords | src/source/dlmalloc.c:3956-3981 | The copy, unrolled or not, copies exactly the given number of words and writes nothing else, for odd numbers from three on. |
| DlCarve.CarveStep | src/source/dlmalloc.c:4000-4006 | Cutting a live chunk gives two live chunks with their words unchanged. |
| DlCarve.Finish | src/source/dlmalloc.c:3990-4010 | A rebuilt chunk keeps exactly the padded request if what is left is enough for a chunk, which is then given back as by free, and all of it otherwise; the words kept are as they were. |
| DlRealloc.GrowIntoTop | src/source/dlmalloc.c:3914-3922 | The chunk grows to exactly the padded request by moving the start of top, with the same contents and nothing else changed. |
| DlRealloc.Absorb | src/source/dlmalloc.c:3924-3931 | The chunk is joined with a free successor, which leaves its list, and cut back, with the same contents. |
| DlRealloc.Relocate | src/source/dlmalloc.c:3933-3986 | malloc picks a new chunk; if that is the next one, both are joined and the chunk stays where it is; otherwise the new one holds the old contents and the old one is given back.  It fails exactly when malloc of the padded size does, or that is out of range. |
| DlRealloc.REALLOc | src/source/dlmalloc.c:3858-4011 | On every path the result is aligned, holds the request, wastes less than a minimum chunk, and has as many words of the old contents as fit; all other payloads are as they were.  The block stays in place if and only if the chunk is large enough, can grow into what follows it, or the chunk that malloc picks is the next one; the heap afterwards is that of the path taken.  Otherwise it succeeds exactly when malloc does; a failure changes nothing live. |
| DlRealloc.NeverBehind | src/source/dlmalloc.c:3942-3948 | A block never moves to the place right behind it. |
| DlAlign.RoundedIsLeast | src/source/dlmalloc.c:4104-4111 | The alignment used is the least power of two that is at least 16 and at least the requested one. |
| DlAlign.LoopEnds | src/source/dlmalloc.c:4107-4111 | On machine words the loop of shifts ends if and only if the alignment is at most half of what a word can hold. |
| DlAlign.RoundAlignment | src/source/dlmalloc.c:4104-4111 | For those the loop computes that alignment. |
| DlAlign.PaddingFits | src/source/dlmalloc.c:4121-4123 | The request passed to malloc is enough if and only if it does not wrap around. |
| DlAlign.PlaceIsGood | src/source/dlmalloc.c:4129-4163 | The place is aligned, the leader at least a minimum chunk, and enough remains behind it. |
| DlAlign.MEMALIGn | src/source/dlmalloc.c:4082-4180 | If the padded request does not wrap around: an aligned payload that holds the request and overlaps no other, handed out exactly when malloc can serve the padded request, at the first place in the chunk that malloc picks where it is aligned and has nothing or a whole chunk before it; both ends are given back as by free, the rear one if it is more than a minimum chunk; all other payloads are as they were.  If it does: malloc is asked for what is left of the sum, and what it grants is always too small, whether it is returned or, off the alignment, cut further. |
| DlAlign.PlaceBeyond | src/source/dlmalloc.c:4131-4134 | The place computed for a misaligned block is the first aligned one with room for a chunk before it. |
| DlAlign.Wraps | src/source/dlmalloc.c:4121-4131 | With the largest alignment and a request of nearly 2^31 bytes, the first memalign gets a chunk of the smallest size and is about to cut a leader out of it. |
| DlInfo.TotalByKind | src/source/dlmalloc.c:4516-4540 | Every byte of a chunk belongs to exactly one kind of chunk. |
| DlInfo.Conserved | src/source/dlmalloc.c:2968-3069 | Bytes counted as obtained are those in use, binned, in fastbins, in top, in fences, and skipped, less those given unasked; with a system that only continues its memory, the last three are always 0. |
| DlInfo.CountFast | src/source/dlmalloc.c:4520-4529 | The walk counts all fastbin chunks and their bytes. |
| DlInfo.CountBins | src/source/dlmalloc.c:4533-4540 | The walk counts all binned and unsorted chunks and their bytes. |
| DlInfo.MALLInfo | src/source/dlmalloc.c:4499-4553 | The report agrees with the chunks, and an initialised state is not changed. |
| DlInfo.UsedIsExact | src/source/dlmalloc.c:4545-4545 | uordblks is exactly the bytes in use if and only if the bytes fenced off and skipped are as many as those given unasked: where nothing is, if and only if nothing is fenced off or skipped; always so with a steady system. |
| DlClient.Run | src/source/dlmalloc.c:3214-4180 | For every script of calls and stores of a client and every script of the system: until the system jams the allocator, each call means what it should to the client, fails only out of range or for lack of memory, and at the end memory holds exactly the client's blocks with the words it put there; a system that deals in multiples of the alignment never jams it. |
| DlClient.OutOfRoom | src/source/dlmalloc.c:2894-2924 | With a system that only continues its memory, a call of a client fails only when there is no answer left or no room for the request. |
| SegregatedFits.SegHeap.Malloc | src/heaplayers/segheap.h:97-152 | Takes an object from the bin a linear scan would find, or asks the big heap when it would find none; the object is never smaller than the request. |
| SegregatedFits.SegHeap.Free | src/heaplayers/segheap.h:155-186 | The object goes to the class it fits and its bit is set; what is too big goes to the big heap. |
| SegregatedFits.NextFlag | src/heaplayers/segheap.h:113-129 | The bit loops reach the next set bit, and all bins passed over are empty. |
| SegregatedFits.OneHome | src/heaplayers/segheap.h:172-179 | A size has one home class. |
| SizeClasses.Size2Class | src/heaplayers/kingsleyheap.h:65-100 | The loop computes the least class that holds the size, which is the class function of `KingsleyFits`. |
| SizeClasses.KingsleyFits | src/heaplayers/kingsleyheap.h:102-104 | The Kingsley size functions meet what segregated fits demand. |
| SizeClasses.LogTwo | src/heaplayers/dlheap.h:262-270 | The loop computes the integer logarithm. |
| SizeClasses.BigClassFits | src/heaplayers/dlheap.h:304-341 | The class always holds the size, and is the least one if and only if the size lies outside 2113 to 10752. |
| SizeClasses.BigFits | src/heaplayers/dlheap.h:274-302 | The size functions of the big heap meet what segregated fits demand. |
| Trees.BstIsSorted | src/heaplayers/experimental/treap.h:212-231 | The recursive key check holds exactly of trees whose in-order sequence is sorted within the bounds. |
| Trees.FlatPlug | src/heaplayers/experimental/treap.h:237-303 | The in-order sequence of a tree seen from one of its places. |
| Treaps.Treap.RotateLeft | src/heaplayers/experimental/treap.h:236-268 | Relinks exactly the one edge in the pointers, wherever the node stands. |
| Treaps.Treap.RotateRight | src/heaplayers/experimental/treap.h:271-303 | Relinks exactly the one edge in the pointers, wherever the node stands. |
| Treaps.Treap.SiftUp | src/heaplayers/experimental/treap.h:425-436 | Ends with priorities in order and the same key sequence. |
| Treaps.Treap.Insert | src/heaplayers/experimental/treap.h:372-443 | The node goes behind all equal keys; key order, priority order and parent links hold, and the node set grows by exactly it. |
| Treaps.Treap.Remove | src/heaplayers/experimental/treap.h:62-117 | Exactly the given node leaves the sequence; key order, priority order and parent links hold. |
| Treaps.Treap.LookupGeq | src/heaplayers/experimental/treap.h:338-369 | A node of least key at or above the given one, or null if and only if there is none. |
| CartesianHeaps.CartesianHeap.Malloc | src/heaplayers/experimental/cartesianheap.h:26-39 | The smallest freed block with at least the bytes asked for leaves the pool; exactly when there is none, a new block of these bytes, but of no fewer than a node needs, is asked for. |
| CartesianHeaps.CartesianHeap.Free | src/heaplayers/experimental/cartesianheap.h:41-46 | The pool grows by the block. |
| CartesianHeaps.CartesianHeap.Remove | src/heaplayers/experimental/cartesianheap.h:49-51 | The pool loses the block. |

## Left out

- DlAlign.MEMALIGn: requires an alignment for which the loop of shifts ends; where the padded request wraps around and the block that malloc returns is misaligned, the code may write outside of it, which is not followed further.
- DlMalloc.Arena.SysMalloc: what the program does after it has made a top that is off the alignment.
- Grants of sbrk that are smaller than what was asked for, pads other than 0, and gaps that are no whole words.
- Allocation by direct mapping of large requests, and realloc and memalign of such chunks.
- mallopt, malloc_trim, calloc, malloc_usable_size, the independent allocation functions and the statistics printed.
- High-water marks and counts of mapped regions in mallinfo.
- The words a fencepost leaves unused: a fence is one chunk of 16 or 24 bytes.
- fork, mmap, mprotect, madvise, signals, semaphores and sbrk themselves; only their effects.
- I/O buffering, libc interposition, gracewait and gracesignal.
- The branches of the signal handler for other faults, and the reclamation of handles in sync.
- Persistence.Region.UpdateAll: does not drop the local version numbers as the code does, because they are recorded again before they are used.
- The lookup by exact key and the printing and deletion of treaps; the value of a treap node is the address of its block.
- Heap layers other than the three modelled, and the literal tables of size classes.
- Locks, timers, tracing and statistics.
