# comfy-aimdo memory managers: verification model

comfy-aimdo runs models whose weights and activations exceed device memory.  Four of its native
components decide which memory backs which address, and this project models them and proves what
they keep.

- **The allocation-graph compiler** (`src/malloc-graph.c`, `src/malloc-rogue.c`, `src/vmm-ref.c`)
  records a frame's allocations and frees in an event tree, answers later frames by walking the
  tree, aliases many virtual pages onto few physical ones, and hands allocations that outlive their
  frame ("rogues") to a registry while it replaces their pages.
- **The VBAR pager** (`src/model-vbar.c` and the retirement registry in `src-xpu/dispatch.cpp`)
  pages weights in and out under pins, watermarks and priorities, and reclaims asynchronously only
  what per-queue fence generations prove to be idle.
- **The device VMM manager** (`src-xpu/vmm-manager.h`) owns reservations, physical objects and
  mappings, with unmaps that may fail midway and be resumed.
- **The UR ledgers** (`src-xpu/ur-usm-hook.cpp`, `src-xpu/ur-usm-detour.c`) charge device
  allocations to a context across retirement and re-adoption, and look them up in an open-addressed
  table with tombstones.

Every call into a driver, every budget reading and every "is this Torch" answer is an argument or a
reply that ranges over all possibilities, so the results hold for any of them.  A region the source
executes under one lock is one atomic step.

## How it is built

Each component has a specification of its operations as functions on values, lemmas about that
specification, and classes whose methods update fields and arrays in place with the source's loops
and are shown to do exactly what the specification says.

| files | content |
|---|---|
| `GraphModel`, `GraphTree`, `GraphSafety`, `GraphRuns`, `GraphAsked` | the event tree, what its nodes mean, safety of leak-free runs, and the sizes asked |
| `GraphRebuild`, `GraphExact`, `GraphExample`, `GraphReplay` | breaks, abort, when the recorder is stale, and replay of any past frame |
| `GraphPages`, `GraphSmall`, `GraphPeak`, `GraphPlaced`, `GraphPeakExample` | the window search, the small heap, page counts, runs with the real searches |
| `GraphRep`, `GraphTables`, `GraphCompiler` | the compiler's tables and the class that updates them |
| `GraphLeaks`, `GraphCollect`, `GraphFinalize`, `GraphWorld*` | severed events, candidates, rogues, replaced pages, safety of all runs, and the book of what is owed |
| `RefModel`, `RogueModel`, `RogueSafety`, `RogueRuns`, `RefLedger` | reference counts, hand-off and late free |
| `RetireModel`, `RetireTokens`, `RetireWorld`, `RetireSafety`, `RetireRuns`, `RetirePages`, `RetireRegistry` | retirement tokens, fences and two-phase eviction: that it is safe and that it comes about |
| `VbarModel`, `VbarOps`, `VbarPool`, `VbarWindows` | the portable pager, its runs, and the Windows page books |
| `VmmModel`, `VmmSafety`, `VmmBooks`, `VmmManager` | the device VMM manager |
| `UrModel`, `UrSafety`, `UrHook`, `PointerTable` | the UR ledger and the pointer table |

`dafny verify dfyconfig.toml` checks everything; each proof obligation is small.

## Where the code does less than one would expect

Each of these is shown by a concrete input or by the exact condition under which the code behaves,
mostly both.

- **A balanced push and pop may leave the recorder stale.**  When a scope breaks above a frame that
  replays, the recorder's state is rebuilt from what that frame holds; the frame's later frees are
  replayed and never reach it.  `GraphExample.StaleStateIsReached` is a run that ends stale, and
  `GraphExact.StaleIffHeldAtLastBreak` says of any run whether it does.  Safety is not affected, but
  pages then stay reserved, so more may be created than any node of the tree has live
  (`GraphPeakExample.TreePeakIsMissed`); without such a break the count is the peak over the tree
  (`GraphPlaced.PagesArePeakOfTree`), and it is the peak over the recorder's states always
  (`GraphPlaced.PagesArePeak`).
- **A small allocation may land on the page of something that leaked.**  A page span at the end of
  the heap can be skipped when a live range ends exactly there and a lower page span is listed in
  between: `GraphWorldExample.BlockedPageIsReached` is a run that gets there, and
  `GraphWorldSearch.BlockedPagesAreClear` and `GraphSmall.ClearUnlessHidden` say when it cannot
  happen.  A byte of what leaked is never handed out again: `GraphWorldSearch.SmallIsClear`.
- **Sizes that vanish or wrap.**  A request for zero bytes may return a live range's address, and one
  above 2^64 minus 8 MiB rounds to zero pages: `GraphSmall.NothingReturnsLiveRange`,
  `GraphPages.PlaceBesideIsOk`, `GraphPlaced.SearchIsSoundIffProper`.
- **A fault that runs short may leave a page above the watermark.**  A page it created earlier stays
  mapped, unpinned, while reclaim for a later one sank the watermark past it:
  `VbarPools.ShortFaultLeavesPage`, `VbarPools.ShortFault`.  After a fault that succeeds every page of
  its range is below the watermark, and a fault that starts above it creates nothing:
  `VbarPools.VbarPool.Fault`.
- **On Windows a page may come back under its old serial on another handle**, when a creation fails
  halfway, its handle cannot be released, and a later fault maps that handle:
  `VbarWindows.EqualSerialsTwoHandles`; `VbarWindows.EqualSerialsSameHandleIff` says exactly when.
- **The pointer table may list a pointer twice** when it is inserted while present behind a
  tombstone: `PointerTables.DuplicateIsReached`, `PointerTables.DuplicateIffRoomBefore`.

## Model

| member | source | states |
|---|---|---|
| GraphWorldPlaced.EveryRunIsSafe | src/malloc-graph.c:926-1376 | From a new graph, with the compiler's own searches, any driver, and clients that ask for proper sizes and free only what they hold: in every run of allocations, frees, pushes, pops (leaking or not), late frees, dying rogues and new root frames that has not failed, every pointer handed out and not given back, however many frames were left since, is alive at the size asked and on the page objects it first led to, nothing else is alive, and no two live things (held, leaked, or a rogue's) share a page object or a byte |
| GraphWorldOwed.EveryDebtStands | src/malloc-graph.c:926-1376 | The client's book alone, written from requests and answers and struck out only by a free: in every run what it lists is alive, of the size and class asked, on the objects first mapped, and everything alive is in it |
| GraphWorldOwed.PopCarries | src/malloc-graph.c:1328-1376 | Leaving a frame, by replay or recording, leaking or not, through a finalization or not, forgets nothing, moves nothing and brings nothing to life: the same places, extents and page objects before and after |
| GraphWorldOwed.LeftBehind | src/malloc-graph.c:751-850 | What the frame that is left still held, and every candidate nobody freed, is afterwards a candidate or, past the outermost frame, a rogue, at the same place and extent, and a rogue holds every page with the object it was mapped to |
| GraphWorldOwed.PlaceIsUnique | src/malloc-graph.c:319-348 | Two things alive at once are never at the same place |
| GraphAsked.SizesAreAsAsked | src/malloc-graph.c:223-254 | In every leak-free run a pointer that was not given back is held with exactly the fewest units for the bytes asked with it and in the class of that size, whether it was replayed or recorded; and nothing is held that was not asked for |
| GraphWorldOffers.FirstServingIsHandedOut | src/malloc-graph.c:223-254 | After any leaks a replaying frame answers a request from the tree exactly when some child records an allocation of exactly that size that is free to use (a large one none of whose pages was given away or is shared with a candidate, a small one on no page of a live candidate or rogue), with the first such child and moving only its cursor; otherwise it breaks |
| GraphWorldOffers.PlainUntilLeaked | src/malloc-graph.c:926-1073 | Until something leaks an allocation does exactly what it does in the leak-free compiler |
| GraphWorldRuns.WorldRunIsSafe | src/malloc-graph.c:926-1376 | The same from any state that satisfies the invariant, for recorded allocations at any sound places, whoever chose them |
| GraphWorldRuns.DeedKeeps | src/malloc-graph.c:1085-1376 | One step of any kind, a recorded allocation being given a sound place, keeps the invariant and the clients' books |
| GraphWorldRuns.RogueDiesKeeps | src/malloc-rogue.c:136-189 | A rogue that is freed at any time gives up its pages and takes nothing from anybody else |
| GraphWorldRuns.ReviveKeepsWorld | src/malloc-graph.c:360-369 | Once its rogue is gone, an address can be mapped back and handed out again without touching what is live |
| GraphWorldSafety.WorldIsMemorySafe | src/malloc-graph.c:319-435 | The invariant is enough: live things of all three kinds are pairwise disjoint, page by page object and byte by byte |
| GraphWorldSearch.SearchIsSound | src/malloc-graph.c:955-1062 | For every proper size, whatever leaked before and however the driver answers, the window search and the small-heap search return a place away from everything live, leaked or a rogue's |
| GraphWorldSearch.SmallIsClear | src/malloc-graph.c:879-924 | Scanned with the pages of rogues and candidates, the small-heap search never returns a byte of a live range, candidate or rogue |
| GraphWorldSearch.BlockedPagesAreClear | src/malloc-graph.c:879-924 | Nor does it touch a page that anything leaked lies on, unless such a page reaches past the end of the heap and is hidden: by a span that ends exactly there and starts lower, or by a lower span listed between such a span and the page |
| GraphWorldExample.BlockedPageIsReached | src/malloc-graph.c:862-924 | A run of thirteen requests, with the compiler's own searches, after which 4 KiB are handed out on the page of a candidate that nobody has freed |
| GraphWorldAllocs.ReplayedAlloc | src/malloc-graph.c:231-249 | A recorded allocation that passes the filter of find_event may be handed out again beside everything that leaked |
| GraphWorldAllocs.RecordedAlloc | src/malloc-graph.c:955-1073 | A recorded allocation placed by a sound search keeps the invariant; new pages back new addresses and are no rogue's |
| GraphWorldPops.CollectKeeps | src/malloc-graph.c:319-348 | Handing over all candidates leaves the frame holding nothing, the outer frames as they were, and every candidate apart from what is still held |
| GraphWorldOwed.SettleCarries | src/malloc-graph.c:751-850 | The finalization when the outermost frame is left: every candidate that nobody freed is afterwards a rogue with its place, extent and page objects, every earlier rogue is as it was, and no rogue comes from anything else |
| GraphWorldPops.SettleKeeps | src/malloc-graph.c:751-850 | And those rogues are apart from everything else, and the graph's invariant holds again |
| GraphWorldPops.OwnedIsHeld | src/malloc-graph.c:693-704 | Every page of a candidate that became a rogue is held by the rogue with the page object it was mapped to before |
| GraphWorld.FindAvailable | src/malloc-graph.c:223-254 | The filtered search for a child event: the first child that matches and is available, of exactly the bytes asked and in the class asked for; past the end when there is none |
| GraphWorld.CollectCandidates | src/malloc-graph.c:319-348 | The loop over the frame's tracked allocations, latest first, against its recursive specification |
| GraphLeaks.SeverKeeps | src/malloc-graph.c:288-317 | Taking an allocation event out of the tree, its children moving up, keeps every node's meaning sound and leaves no link to the event |
| GraphLeaks.SeverTrims | src/malloc-graph.c:288-317 | What a node means afterwards is what it meant before, without exactly the severed allocation if that was on its path; later frees of it become no-ops |
| GraphLeaks.SpliceChildren | src/malloc-graph.c:293-304 | The loop that rebuilds the parent's list of children, against its specification |
| GraphLeaks.ScrubKeeps | src/malloc-graph.c:609-647 | Scrubbing severed allocations out of every snapshot keeps the tree sound, calls included |
| GraphCollect.SeverTopKeeps | src/malloc-graph.c:319-348 | Severing one allocation of the innermost frame keeps the graph's invariant, changes no outer frame's meaning, and takes exactly that allocation off what the frame holds |
| GraphCollect.OuterIgnores | src/malloc-graph.c:319-348 | No outer frame's cursor, tracked list or state mentions an event that the innermost frame tracks |
| GraphRuns.RunIsSafe | src/malloc-graph.c:926-1376 | In every run whose frames are left empty, at any nesting and whether an address was recorded, replayed or came after a break, the frames' states are exactly what the clients hold and all of it is pairwise apart |
| GraphRuns.StepKeeps | src/malloc-graph.c:926-1376 | One request keeps the tree invariant and the agreement with the client's books |
| GraphPlaced.PlacedRunIsSafe | src/malloc-graph.c:926-1151 | With the compiler's own searches and any driver: everything held is apart, every byte is on a created page, and the pages created are the peak of the recorder's live pages |
| GraphPlaced.PagesArePeak | src/malloc-graph.c:1027-1062 | From a new graph, the number of physical pages is exactly the largest number the recorder ever had live at once |
| GraphPlaced.PagesArePeakOfTree | src/malloc-graph.c:1027-1062 | From a new graph, when no frame breaks above a replaying frame that holds something, the number of pages created is the largest number live at any node of the tree, over all branches and replays |
| GraphPeakExample.TreePeakIsMissed | src/malloc-graph.c:590-607 | A run of fifteen requests in which such a break makes the compiler create two pages although no node of the tree has more than one live |
| GraphPlaced.SearchIsSoundIffProper | src/malloc-graph.c:955-1025 | Without rogues the searches find sound places exactly for sizes that neither vanish nor wrap around 64 bits when rounded up |
| GraphSafety.HeldAreApart | src/malloc-graph.c:926-1151 | Two allocations held by any frames of the stack share no physical page and no byte |
| GraphSafety.ReadyKeeps | src/malloc-graph.c:852-860 | A break keeps the invariant and every frame's meaning |
| GraphSafety.DropOutsideFails | src/malloc-graph.c:1118-1141 | Freeing an outer frame's allocation while recording fails the graph and records nothing |
| GraphTree.AppendKeeps | src/malloc-graph.c:256-268 | Appending a sound event keeps every node of the tree sound and means the event applied to the cursor's state |
| GraphTree.CallKeeps | src/malloc-graph.c:1295-1325 | Recording a call with its scope and snapshot keeps every node sound |
| GraphTree.EmptyFrameIsSnapshot | src/malloc-graph.c:590-607 | A scope's state equals its snapshot exactly when its tracked list is empty |
| GraphExact.RebuildingIsRecording | src/malloc-graph.c:590-607 | Rebuilding equals direct recording: a frame recorded from its scope by any takes, frees and balanced scopes, and the same frame replayed later to the same event and broken there, have the same tracked list; and the same state if and only if direct recording was not left stale by a break inside it, which without a break it never is |
| GraphExact.TidyRunIsExact | src/malloc-graph.c:590-607 | In every run in which no frame breaks above a replaying frame that holds something, every scope is recorded from exactly its caller's state, and the recorder is exact whenever a frame records |
| GraphRebuild.TakeStaysExact | src/malloc-graph.c:1064-1073 | Recording on a rebuilt state keeps recorder and meaning equal |
| GraphRebuild.BalancedRunKeepsCaller | src/malloc-graph.c:1277-1376 | A balanced push and pop with anything in between leaves the caller's frame, its meaning and what its client holds unchanged |
| GraphRebuild.EndRestoresCaller | src/malloc-graph.c:1359-1375 | A scope recorded from its caller's exact state and left empty gives the recorder back exactly the caller's state |
| GraphExact.StaleIffHeldAtLastBreak | src/malloc-graph.c:590-607 | A frame records on exactly its state; after any run in it and in frames above it, the recorder is again exact if and only if no break happened, or at the last one no replaying frame in between held anything and every scope above had been entered with exactly its caller's state |
| GraphExact.LastBreakDecides | src/malloc-graph.c:590-607 | The same from a state that is not exact: only the last break counts, and without one nothing changes |
| GraphExample.StaleStateIsReached | src/malloc-graph.c:590-607 | A run of fourteen requests after which the recorder still counts a freed page as live |
| GraphRebuild.AbortRegistersHeld | src/malloc-graph.c:722-749 | Abort registers exactly the live allocations of all open frames, read from the tree as it was when abort began |
| GraphRebuild.AbortRegistersOnce | src/malloc-graph.c:722-749 | Abort registers none of them twice |
| GraphReplay.HistoryRerun | src/malloc-graph.c:223-268 | After any history of root frames without named scopes and leaks that never failed, rerunning the requests of any earlier frame gives the same pointers and leaves the graph as it was: no break, no driver call, no event |
| GraphReplay.HistoryReplays | src/malloc-graph.c:223-268 | The tree still answers every past frame of such a history with the answers it got |
| GraphReplay.FrameReplays | src/malloc-graph.c:1351-1375 | A root frame that completes is answered by the tree from then on |
| GraphPages.SearchWindow | src/malloc-graph.c:1002-1025 | The in-place scan with the alias-aware skip finds the lowest window of dead, non-rogue pages on distinct physical pages, marks exactly its pages, and leaves the marks untouched when there is none |
| GraphPages.TryWindow | src/malloc-graph.c:1005-1016 | One attempt: marks the pages tried and stops at the first that is taken or shared |
| GraphPages.UndoWindow | src/malloc-graph.c:1017-1024 | Taking an attempt back restores the marks and moves on past the earlier alias only |
| GraphPages.SkipsNoWindow | src/malloc-graph.c:1017-1024 | The skip passes over no window that fits |
| GraphPages.LowestIsUnique | src/malloc-graph.c:1002-1025 | There is only one lowest window, so the search is determined by its specification |
| GraphPages.ChooseIsLowest | src/malloc-graph.c:1035-1051 | The physical pages chosen for fresh addresses are distinct, free and the lowest such, and a page is created only when none is free |
| GraphPages.ChooseCount | src/malloc-graph.c:1027-1062 | Pages are created exactly as far as the pages in use at once require |
| GraphPages.FillWindow | src/malloc-graph.c:1035-1062 | The loop that backs a fresh window, until the driver refuses a page |
| GraphPages.PlaceBesideIsOk | src/malloc-graph.c:999-1062 | Whatever rogues hold, the large place found is sound exactly for sizes up to 2^64 minus 8 MiB; above that the page count wraps to zero |
| GraphSmall.FindOffset | src/malloc-graph.c:879-924 | The sweep over holes, loop against specification |
| GraphSmall.ScanSpans | src/malloc-graph.c:862-877 | One scan of the occupied stretches, loop against specification |
| GraphSmall.BestFit | src/malloc-graph.c:879-924 | With no blocked spans the result is the smallest gap that holds the request, the lowest on ties, or the end of the heap when none does |
| GraphSmall.LiveRangesAreClear | src/malloc-graph.c:879-924 | The result shares no byte with any span that lies inside the heap, blocked spans present or not |
| GraphSmall.AllSpansAreClear | src/malloc-graph.c:879-924 | It avoids every blocked span too when none reaches past the end of the heap, or when one that does is not hidden by a span that ends exactly there |
| GraphSmall.ClearUnlessHidden | src/malloc-graph.c:879-924 | When every blocked span reaches past the end of the heap, the result avoids all spans if and only if the last live range does not both end the heap and start below every blocked span, or some hole holds the request |
| GraphSmall.BlockedSpanIsMissed | src/malloc-graph.c:862-877 | A list of spans on which the result lies on a blocked page |
| GraphSmall.NothingReturnsLiveRange | src/malloc-graph.c:955-957 | A request of zero bytes is given an address that may be a live range's own |
| GraphSmall.GrowthNeedsOnePage | src/malloc-graph.c:963-982 | Growing the small heap never needs more than one new 8 MiB page |
| GraphSmall.SmallPlaceIsOk | src/malloc-graph.c:955-998 | The small place found is sound exactly for sizes above zero |
| GraphCompilers.GraphCompiler.constructor | src/malloc-graph.c:1205-1252 | A new graph: the root frame records and nothing is live |
| GraphCompilers.GraphCompiler.Allocate | src/malloc-graph.c:926-1073 | For any 64-bit size the allocation on the real tables, replayed or recorded, does exactly the specified step with the searches' place, a replayed one being of exactly the size asked; marks, page table, sorted ranges and the used count stay true unless a size that vanishes or wraps was recorded |
| GraphCompilers.GraphCompiler.Free | src/malloc-graph.c:1085-1151 | For any pointer the free on the real tables does exactly the specified step; the tables stay true unless the pointer was held by no frame and failed the graph |
| GraphCompilers.GraphCompiler.Push | src/malloc-graph.c:1277-1326 | Entering a scope, with its snapshot of the tables, does exactly the specified step |
| GraphCompilers.GraphCompiler.Pop | src/malloc-graph.c:1328-1376 | Leaving a frame does exactly the specified step and stops at an allocation that leaks |
| GraphCompilers.GraphCompiler.OpenRoot | src/malloc-graph.c:1283-1290 | Opening the root frame does exactly the specified step |
| GraphCompilers.GraphCompiler.FindEvent | src/malloc-graph.c:223-254 | The search for a matching child: the first one; for an allocation one that recorded exactly the bytes and the class asked for, and none exactly when there is no such child |
| GraphCompilers.GraphCompiler.Materialize | src/malloc-graph.c:590-607 | The recursive rebuilding of the tables from a snapshot, with the used count recomputed, against its specification |
| GraphCompilers.GraphCompiler.BeginRecording | src/malloc-graph.c:852-860 | A break on the real tables does exactly the specified step and the rebuilt tables are true of the rebuilt state |
| GraphCompilers.GraphCompiler.ApplyEvent | src/malloc-graph.c:538-588 | One event applied to the tables |
| GraphCompilers.GraphCompiler.RecordLarge | src/malloc-graph.c:999-1073 | The recorded large allocation on the real tables |
| GraphCompilers.GraphCompiler.RecordSmall | src/malloc-graph.c:955-998 | The recorded small allocation on the real tables |
| GraphTables.RebuildShows | src/malloc-graph.c:538-607 | Rebuilding from a snapshot and the path gives tables that show exactly what the node means: page table, marks of live pages, sorted ranges, tracked list, and a used count, recomputed at the snapshot, that is the bytes of all its allocations |
| GraphTables.UsedIsRecomputed | src/malloc-graph.c:200-212 | Whatever led to the tables, the running used count is what recomputing it would give: one page per set mark of a physical page plus the bytes of all ranges |
| GraphRep.RecomputedIsUsed | src/malloc-graph.c:200-212 | Allocations share no physical page, so the marks count exactly the pages of their spans |
| GraphCompilers.GraphCompiler.RecomputeUsed | src/malloc-graph.c:200-212 | The two loops over marks and ranges, against that count |
| GraphRep.ListsAreEqual | src/malloc-graph.c:549-575 | The sorted list of small ranges is determined by the state |
| GraphFinalize.FinalizeKeeps | src/malloc-graph.c:751-850 | After a finalization every address that is no black hole is mapped to its page, and no page the graph can hand out is held by a rogue |
| GraphFinalize.RoguesKeepBacking | src/malloc-graph.c:649-711 | New rogues keep the page objects their addresses were mapped to; old rogues keep theirs |
| GraphFinalize.AliasesMove | src/malloc-graph.c:794-811 | Every other alias of a replaced page is mapped to its replacement, an object created for it, and all other addresses keep their mapping |
| GraphFinalize.BackingArrays.Finalize | src/malloc-graph.c:751-850 | The finalization on the real arrays, with any driver answers: it succeeds with exactly the specified result, or fails for a driver refusal |
| GraphFinalize.BackingArrays.RemapAliases | src/malloc-graph.c:794-811 | The remapping loop over all virtual pages |
| GraphFinalize.BackingArrays.CreateReplacements | src/malloc-graph.c:759-791 | One replacement per physical page under a candidate, or the point where the driver refuses |
| RogueRuns.HandoffFollowsFrees | src/malloc-rogue.c:64-164 | From a candidate's registration, through any interleaved steps of anybody, to the decision of its hand-off: if nobody freed the pointer meanwhile it is listed as a rogue with the references made, and if somebody did it is not listed and is undone |
| RogueRuns.HandoffEnds | src/malloc-rogue.c:64-189 | And whatever follows: a declined hand-off is never listed and is over only when every reference it made was dropped; an owned one, until its pointer is freed, stays listed and every address it was given stays backed by the same allocation |
| RogueRuns.DeclinedIsUndone | src/malloc-rogue.c:113-124 | A declined hand-off is over only when every reference it made was dropped |
| RogueRuns.UnfreedRogueStays | src/malloc-rogue.c:136-189 | No run without a free of its pointer takes a rogue off the list or changes what backs its addresses |
| RogueRuns.LateFreeFinishes | src/malloc-rogue.c:136-189 | The late free of a listed rogue, whatever the driver answers, drops every reference it holds and takes it off the list |
| RogueRuns.HandoffReachesDecision | src/malloc-rogue.c:64-95 | A hand-off of pages mapped side by side comes to its decision with one new reference per page, each to the allocation behind that page and at the page's own address |
| RogueSafety.LedgerIsSound | src/vmm-ref.c:43-131 | In every run, for any driver failures and any interleaving of hand-offs and late frees: counts equal list lengths, charged bytes equal the live objects' sizes, objects are released once and never while mapped, and no reference is dropped twice |
| RogueSafety.RogueKeepsBacking | src/malloc-rogue.c:64-124 | Until its late free, every address of a rogue stays mapped to the object it was handed off with |
| RogueSafety.OwnedRefStays | src/malloc-rogue.c:64-189 | No step but the rogue's own free changes or drops a reference that it holds |
| RogueSafety.FreeEndKeeps | src/malloc-rogue.c:166-187 | A rogue leaves the list only after each of its references was dropped |
| RogueSafety.StepKeeps | src/malloc-rogue.c:33-189 | Every step of hand-off, undoing, late free and the graph's own calls keeps the ledger, the ranges and the ownership of references sound |
| RefModel.PageUnrefKeeps | src/vmm-ref.c:88-131 | Dropping a reference, whatever the driver answers, keeps the ledger sound; it fails only with a driver call |
| RefModel.UnmapsOnlyLast | src/vmm-ref.c:88-131 | An address is unmapped only by its last reference, an object released only when nothing maps it, and nothing else changes |
| RefModel.UnrefIsExact | src/vmm-ref.c:88-131 | Dropping a reference, told from the references alone: its address is unmapped exactly when no other reference holds it and the driver agrees, the object is released and uncharged exactly with its only reference once that is unmapped, the reference goes exactly when neither was refused, and no other reference changes |
| RefModel.MapReferenceIsExact | src/malloc-graph.c:494-517 | Mapping succeeds exactly when the driver maps and grants access, with one mapping and one reference more; otherwise, unless the driver also refuses to unmap, the ledger is as before |
| RefModel.PageRefKeeps | src/vmm-ref.c:73-86 | A new reference keeps the ledger sound |
| RefModel.MapReferenceKeeps | src/malloc-graph.c:494-517 | Mapping at a fresh address keeps the ledger sound in all outcomes |
| RefLedgers.RefLedger.Create | src/vmm-ref.c:43-71 | Creating an object with its first reference |
| RefLedgers.RefLedger.Reference | src/vmm-ref.c:73-86 | Adding a reference to an object's list and count |
| RefLedgers.RefLedger.Unreference | src/vmm-ref.c:88-131 | Dropping a reference in place does exactly the specified step |
| RefLedgers.RefLedger.FindShared | src/vmm-ref.c:102-107 | The scan for another reference with the same address |
| RefLedgers.RogueRegistry.RegisterCandidate | src/malloc-rogue.c:33-45 | Registering a candidate in front of the list |
| RefLedgers.RogueRegistry.UnregisterCandidate | src/malloc-rogue.c:21-51 | Taking a candidate off the list |
| RefLedgers.RogueRegistry.CandidateFreed | src/malloc-rogue.c:53-62 | Whether the first candidate with the pointer was freed |
| RefLedgers.RogueRegistry.DecideHandoff | src/malloc-rogue.c:96-117 | The locked decision of a hand-off: the first candidate with the pointer leaves the list; one that nobody freed is owned and listed as a rogue, one that somebody freed is declined and not listed, and without a candidate it is an error |
| RefLedgers.RogueRegistry.Exists | src/malloc-rogue.c:126-134 | Whether a rogue with the pointer is listed |
| RefLedgers.RogueRegistry.Begin | src/malloc-rogue.c:136-164 | The locked first part of a late free: the first rogue with the pointer is claimed once and a second free of it answers success without a claim; without a rogue the first candidate is marked freed; without either the pointer is not ours |
| RefLedgers.RogueRegistry.Finish | src/malloc-rogue.c:178-187 | The locked second part: the rogue leaves the list |
| RetireSafety.ReclaimIsSafe | src/model-vbar.c:841-921 | In every interleaving of uses, tokens, batched fences, polls, resets, freezes, faults, unpins, consumers and commits: no unmap of a page before all uses recorded for it have completed |
| RetireSafety.StepKeeps | src/model-vbar.c:1083-1125 | Each atomic step of that machine keeps its invariant |
| RetireSafety.CompleteTokenSettles | src/model-vbar.c:221-256 | A token that a snapshot completes settles every use that it dominates, of its own or any earlier generation and incarnation of its slot |
| RetireSafety.RetiredMeansDone | src/model-vbar.c:221-256 | The retirement test succeeds only when every use recorded for the page is done |
| RetireSafety.UnmapIsSafe | src/model-vbar.c:841-875 | The commit reaches the driver's unmap only for such pages |
| RetireSafety.RetiredPageIsReclaimed | src/model-vbar.c:841-921 | And it does reach it: a retired page that is frozen and committed with nothing in between is freed and forgets its uses |
| RetireSafety.UseSavesPage | src/model-vbar.c:841-875 | A pin and unpin between freeze and commit saves the page |
| RetireRuns.UseIsRetired | src-xpu/dispatch.cpp:1494-1694 | Retirement comes about: for a use issued a token in any run, after a forced visit of its slot that can place a barrier, any steps without a reset, and a visit that finds the barrier complete, the snapshot entry written makes the token count as complete |
| RetireRuns.QuietPageIsReclaimed | src/model-vbar.c:841-921 | End to end: after a forced snapshot that can place its barriers, any steps without a reset, and a snapshot that finds them complete, an idle page used by nobody since may be frozen, and the commit frees it |
| RetireRuns.EveryUseAwaits | src-xpu/dispatch.cpp:1494-1694 | In every run each use's generation is open with uses pending, closed by a listed barrier, or retired |
| RetireRuns.PollRetires | src-xpu/dispatch.cpp:1494-1521 | Polling retires up to the generation of every fence that answered complete, no further than one of those, frees those fences and leaves the others |
| RetireRuns.TokenIsIssued | src-xpu/dispatch.cpp:1626-1660 | While the registry accepts queues a use gets a token of its own queue's slot, unless the queue cannot be registered or its generations are used up |
| RetireRuns.FullBatchCloses | src-xpu/dispatch.cpp:1653-1658 | The use that fills a batch closes the generation with a listed barrier, if one can be placed |
| RetireRuns.ForcedVisitCloses | src-xpu/dispatch.cpp:1665-1694 | So does a forced visit, for a partial batch |
| RetirePages.PageRemembersNewest | src/model-vbar.c:196-219 | Recording tokens of the registry's slots on a page, in any order and number, never gives up and leaves exactly the newest token of each slot |
| RetirePages.RecordedNewest | src/model-vbar.c:196-219 | One more token keeps that, and there is always room for it |
| RetireTokens.PackUnpacks | src/gpu_dispatch.h:9-23 | The 7, 24 and 33 bit fields of a token are recovered from it, and it fits 64 bits |
| RetireTokens.PackOrder | src/model-vbar.c:196-219 | Tokens of one slot compare like incarnation, then generation |
| RetireTokens.IssuedIsTracked | src-xpu/dispatch.cpp:1626-1660 | The slot tracks the use a token was issued for: open, or under a barrier behind it |
| RetireTokens.PollTracks | src-xpu/dispatch.cpp:1494-1521 | Polling retires only generations whose uses are done |
| RetireTokens.VisitTracks | src-xpu/dispatch.cpp:1665-1694 | So does a forced visit that closes a partial batch |
| RetireRegistries.RetireRegistry.NoteQueue | src-xpu/dispatch.cpp:381-453 | Finding or registering a queue's slot |
| RetireRegistries.RetireRegistry.PollQueue | src-xpu/dispatch.cpp:1494-1521 | Polling all fences of a slot: every fence that answered is freed and its generation retired, the retired generation is the old one or one of those, and the other fences stay |
| RetireRegistries.RetireRegistry.SubmitFence | src-xpu/dispatch.cpp:1523-1562 | Submitting a barrier for the open generation |
| RetireRegistries.RetireRegistry.TokenCurrent | src-xpu/dispatch.cpp:1626-1660 | Issuing a token and batching barriers |
| RetireRegistries.RetireRegistry.Snapshot | src-xpu/dispatch.cpp:1665-1694 | What every slot has retired, after each of its answered fences was retired |
| RetireRegistries.RetireRegistry.ForgetAll | src-xpu/dispatch.cpp:1696-1753 | The reset of a drained registry keeps the incarnation counter |
| RetireRegistries.RetireList.Record | src/model-vbar.c:196-219 | Remembering a token in place of an older one of its slot, or giving up when the list is full |
| RetireRegistries.RetireList.Complete | src/model-vbar.c:221-256 | The retirement test over the remembered tokens |
| VmmSafety.RunKeeps | src-xpu/vmm-manager.h:93-224 | Every reachable manager keeps mappings pairwise disjoint per context, inside a reservation and a live physical object of the same owner, and each aligned interior inside its outer reservation |
| VmmSafety.InteriorOk | src-xpu/vmm-manager.h:103-115 | The aligned interior lies inside the padded outer reservation and has the alignment asked for |
| VmmSafety.CoveredIffTiled | src-xpu/vmm-manager.h:80-88 | The byte-sum test holds if and only if the range is fully tiled by the owner's mappings that are not under cleanup |
| VmmSafety.PendingIsClosed | src-xpu/vmm-manager.h:148-210 | After an unmap that failed midway no call but its retry maps, unmaps, sets access on or frees any byte of the range: it is refused and changes nothing |
| VmmSafety.PendingStaysOverRuns | src-xpu/vmm-manager.h:183-210 | Over any run without the retry the range keeps exactly the mappings still to be removed |
| VmmSafety.RetryFinishes | src-xpu/vmm-manager.h:183-210 | A retry served in full removes exactly those mappings and reopens the range |
| VmmSafety.RunConserves | src-xpu/vmm-manager.h:148-210 | Over any run the mappings made are those still listed and those unmapped, each exactly once |
| VmmBooks.ListsAreTheBook | src-xpu/vmm-manager.h:93-224 | After any run the lists are exactly the objects and ranges that calls and answers handed out and that were not given back |
| VmmBooks.MapSucceedsIff | src-xpu/vmm-manager.h:148-171 | Mapping succeeds exactly when the caller's reservation holds the range, the caller's object fits at the offset, no mapping is in the way and the driver agrees |
| VmmBooks.FreeSucceedsIff | src-xpu/vmm-manager.h:118-129 | Freeing succeeds exactly for a listed reservation of the caller in which nothing is mapped, when the driver agrees |
| VmmBooks.DestroySucceedsIff | src-xpu/vmm-manager.h:212-224 | Destroying succeeds exactly for an object of the caller that nothing in the context maps, when the driver agrees |
| VmmBooks.AccessSucceedsIff | src-xpu/vmm-manager.h:173-181 | Access is granted exactly on a range fully tiled by the caller's mappings, when the driver agrees |
| VmmBooks.UnmapClears | src-xpu/vmm-manager.h:183-210 | An unmap that succeeds removed every mapping that reaches into the range and no other |
| VmmBooks.DestroyedIsGone | src-xpu/vmm-manager.h:212-224 | Exactly the destroyed object leaves the list |
| VmmBooks.FreedIsGone | src-xpu/vmm-manager.h:118-129 | Exactly the freed range leaves the list |
| VmmManagers.VmmManager.Reserve | src-xpu/vmm-manager.h:93-116 | The padded reservation and its aligned interior, with every refusal, in place and exactly as specified |
| VmmManagers.VmmManager.Free | src-xpu/vmm-manager.h:118-129 | Freeing a reservation, refused while anything in it is mapped, in place and exactly as specified |
| VmmManagers.VmmManager.Create | src-xpu/vmm-manager.h:131-146 | Creating a physical object, in place and exactly as specified |
| VmmManagers.VmmManager.Map | src-xpu/vmm-manager.h:148-171 | Mapping, with the range, object and overlap checks, in place and exactly as specified |
| VmmManagers.VmmManager.Access | src-xpu/vmm-manager.h:173-181 | Setting access on a covered range, in place and exactly as specified |
| VmmManagers.VmmManager.Unmap | src-xpu/vmm-manager.h:183-210 | Tagging and removing mappings one driver call at a time, in place and exactly as specified |
| VmmManagers.VmmManager.Destroy | src-xpu/vmm-manager.h:212-224 | Destroying an object that nothing maps, in place and exactly as specified |
| VmmManagers.VmmManager.IsCovered | src-xpu/vmm-manager.h:80-88 | The byte-sum loop, in place and exactly as specified |
| PointerTables.TableRefinesMap | src-xpu/ur-usm-detour.c:229-271 | For any hash, any run of fresh inserts and any removes gets exactly the answers of a finite map bounded by the table's size |
| PointerTables.InsertRefines | src-xpu/ur-usm-detour.c:229-249 | An absent pointer is inserted exactly when a slot is not in use, and adds its entry to the map |
| PointerTables.RemoveRefines | src-xpu/ur-usm-detour.c:251-271 | A removal succeeds exactly for present pointers, returns what was recorded and takes the entry out |
| PointerTables.DuplicateIffRoomBefore | src-xpu/ur-usm-detour.c:235-247 | Inserting a present pointer is refused if and only if no unused or buried slot precedes it on its probe path; otherwise the table lists it twice |
| PointerTables.DuplicateIsReached | src-xpu/ur-usm-detour.c:235-247 | A run of six operations, for any two pointers that collide, in which one pointer is removed twice |
| PointerTables.FullIsCapacity | src-xpu/ur-usm-detour.c:211-212 | The table is full exactly when its map has as many entries as there are slots, and its count is the map's size |
| PointerTables.PointerTable.Insert | src-xpu/ur-usm-detour.c:229-249 | The insertion's probe loop over the array, exactly as specified |
| PointerTables.PointerTable.Remove | src-xpu/ur-usm-detour.c:251-271 | The removal's probe loop over the array, exactly as specified |
| UrSafety.BooksBalance | src-xpu/ur-usm-hook.cpp:372-742 | After any run: each device's total is what others charged plus the accounted sizes, retired minus freed bytes is what is still retired, and synthetic refusals are at most the nonzero hint publications |
| UrSafety.LedgerIsWhatIsHeld | src-xpu/ur-usm-hook.cpp:265-742 | After any run the ledger lists exactly the pointers that were answered and whose native free has not succeeded since, each with the size and device it was asked for |
| UrModel.AnswerIsPointerIff | src-xpu/ur-usm-hook.cpp:372-518 | A pointer is answered exactly when the native allocator was asked and gave a new pointer that can be recorded and charged |
| UrModel.AnswerIsListed | src-xpu/ur-usm-hook.cpp:265-293 | A pointer is answered only with the ledger extended by exactly that pointer, its size and device; any other answer leaves the ledger as it was |
| UrModel.NativeComesAfterEviction | src-xpu/ur-usm-hook.cpp:447-505 | Whenever the native allocator is asked, eviction of the whole deficit was asked before, and whenever that made room the native allocator is asked |
| UrSafety.EnableAdoptsAllOrNone | src-xpu/ur-usm-hook.cpp:589-618 | Enabling charges every surviving entry exactly once when the context accepts all of them, and otherwise changes nothing |
| UrSafety.FreeKeeps | src-xpu/ur-usm-hook.cpp:520-572 | A free discharges exactly what its entry was charged and never hits the floor of zero |
| UrSafety.AccountKeeps | src-xpu/ur-usm-hook.cpp:265-293 | A success is recorded and charged, or neither |
| UrSafety.RetireKeeps | src-xpu/ur-usm-hook.cpp:659-682 | Retiring leaves nothing accounted, so any new context starts balanced |
| UrSafety.FastPathIsSafe | src-xpu/ur-usm-hook.cpp:526-541 | While disabled, a free may skip the ledger exactly when the ledger is empty |
| UrSafety.RetryIsNotRefused | src-xpu/ur-usm-hook.cpp:372-518 | After a synthetic refusal the same request, repeated, goes to the native allocator with no second refusal |
| UrSafety.RetryEvictsTheRest | src-xpu/ur-usm-hook.cpp:447-469 | After a native shortage and any frees by the caller, the repeated request evicts the larger of the deficit and the request's size less the bytes given back on that device meanwhile |
| UrHooks.UrHook.DeviceAlloc | src-xpu/ur-usm-hook.cpp:372-518 | The allocation entry with hint, reclaim, refusal and retry, and the bytes it asks to be evicted: a pointer is answered if and only if the native call gave it and the ledger now lists it with its size and device, in place and exactly as specified |
| UrHooks.UrHook.FreeUsm | src-xpu/ur-usm-hook.cpp:520-572 | The free entry, in place and exactly as specified |
| UrHooks.UrHook.RecordSuccess | src-xpu/ur-usm-hook.cpp:265-293 | Recording a native success, undone when the charge is refused, in place and exactly as specified |
| UrHooks.UrHook.ConsumeHint | src-xpu/ur-usm-hook.cpp:209-219 | Spending a cache hint, in place and exactly as specified |
| UrHooks.UrHook.EnableHook | src-xpu/ur-usm-hook.cpp:589-618 | Adoption loop and rollback loop, in place and exactly as specified |
| UrHooks.UrHook.DisableHook | src-xpu/ur-usm-hook.cpp:633-643 | Disabling, in place and exactly as specified |
| UrHooks.UrHook.RetireAll | src-xpu/ur-usm-hook.cpp:659-682 | Retiring the whole ledger, in place and exactly as specified |
| UrHooks.UrHook.PublishHint | src-xpu/ur-usm-hook.cpp:726-742 | Publishing a cache hint, in place and exactly as specified |
| VbarOps.PinnedStaysMapped | src/model-vbar.c:404-629 | From any moment of any run of the pool's operations from an empty pool: as long as fewer unpins of a page follow than it has pins, and its VBAR is not destroyed, the page is mapped, on the same handle |
| VbarOps.DeniedStaysAbsent | src/model-vbar.c:1514-1669 | In every run an absent page at or above its VBAR's watermark is created by no fault until the watermark is raised above it |
| VbarPools.ShortFaultLeavesPage | src/model-vbar.c:1623-1672 | Only a fault that succeeds leaves what it created below the watermark: one of two pages ends with a shortage and its first page mapped above the watermark |
| VbarPools.ShortFault | src/model-vbar.c:1623-1672 | The pager's own steps to that state |
| VbarOps.EqualSignaturesSamePages | src/model-vbar.c:1462-1739 | Two successful faults of any run over the same bytes with equal signatures: no page of the range was re-created in between, and all are mapped to the same handles, while serials fit 32 bits |
| VbarOps.RunKeeps | src/model-vbar.c:517-2113 | In every pool that a run reaches: pinned pages are mapped, resident counts are exact, and usage is 32 MiB times the pages mapped |
| VbarOps.DoesKeeps | src/model-vbar.c:517-2113 | Each operation, as a relation between two pools, keeps those books |
| VbarOps.DoesEvolves | src/model-vbar.c:517-2113 | Each operation changes a page's handle only by reclaiming it or by creating it anew with the next serial, and never while it stays pinned |
| VbarOps.PinsAfter | src/model-vbar.c:404-412 | Only an unpin of the page takes a pin away, and only one; only destroying the VBAR takes them all |
| VbarModel.ReclaimEvolves | src/model-vbar.c:517-629 | Reclaim leaves pins and serials alone and takes the handle only of an unpinned page |
| VbarModel.FaultRangeIsExact | src/model-vbar.c:90-101 | A fault's page range is accepted exactly when it is inside the reservation, is exactly the pages the request meets, and does not wrap |
| VbarPools.VbarPool.Fault | src/model-vbar.c:1462-1739 | A fault over a byte range.  Outside the reservation nothing happens.  A range that ends above the watermark creates nothing and is a shortage, or an error when a writeback of the early reclaim fails; one that nothing presses succeeds, creates exactly the absent pages and disturbs nothing else; success means that the range lies below the watermark, adds exactly one pin to each of its pages, all mapped, and returns their serials; failure leaves every pin count as it was, a shortage means that the watermark sank below the range's end, and an error that a writeback or a mapping could fail.  Other pages are only reclaimed, while unpinned |
| VbarPools.VbarPool.FreeForVbar | src/model-vbar.c:1184-1217 | When no writeback fails: every watermark is at or below its limit, or the surplus is not negative and the absent pages of the target below target and watermark are covered by the initial surplus plus the bytes freed; VBARs are taken in priority order, each to its limit before the next; a budget that covers the absent pages frees nothing |
| VbarPools.VbarPool.FreeInternal | src/model-vbar.c:584-629 | Frees what was asked for, or everything above the limits of the VBARs that may be touched, never a pinned page, and touches no VBAR before every lower one that may be touched is at its limit |
| VbarPools.VbarPool.FreePage | src/model-vbar.c:517-582 | Frees or keeps one page, with the failed writeback, the watermark and the unpinning cases |
| VbarPools.VbarPool.LowerWatermark | src/model-vbar.c:604-620 | One step of reclaim lowers one watermark by a page and frees at most that page |
| VbarPools.VbarPool.MoveCursor | src/model-vbar.c:1167-1173 | The cursor stops at the next absent page below the watermark |
| VbarPools.VbarPool.SpendSurplus | src/model-vbar.c:1176-1182 | Surplus is spent page by page on absent pages, never below zero |
| VbarPools.VbarPool.UnpinRange | src/model-vbar.c:404-412 | A fault that gives up takes back exactly the pins it took, and leaves every handle in place |
| VbarPools.VbarPool.BringIn | src/model-vbar.c:1595-1736 | One absent page: created only while the range ends below the watermark, a shortage only when reclaim lowered it, at once and with nothing else touched when the budget covers the range and the driver maps, an error only when a writeback or a mapping fails |
| VbarPools.VbarPool.Unpin | src/model-vbar.c:1943-2020 | One pin of every page is given back, and unpinned pages above the watermark are freed |
| VbarPools.VbarPool.SetWatermark | src/model-vbar.c:1322-1365 | Unpinned pages above the new watermark are freed, a failed writeback keeps the old watermark, and no other VBAR changes |
| VbarPools.VbarPool.SetLimit | src/model-vbar.c:1310-1319 | Only the limit changes |
| VbarPools.VbarPool.Allocate | src/model-vbar.c:1240-1307 | A new VBAR at the high end of the priority list with no page resident |
| VbarPools.VbarPool.Prioritize | src/model-vbar.c:1415-1432 | Moves a VBAR to the high end and reopens its watermark |
| VbarPools.VbarPool.Deprioritize | src/model-vbar.c:1435-1449 | Moves a VBAR to the low end |
| VbarPools.VbarPool.Destroy | src/model-vbar.c:2023-2113 | Every page, pinned or not, is freed and uncharged, and the VBAR leaves the list |
| VbarWindows.BooksBalance | src/model-vbar.c:415-582 | For every pattern of driver failures: charged bytes are 32 MiB times the pages holding a handle, the resident count is the pages known to be mapped, and live handles are exactly those held, each by one page |
| VbarWindows.EqualSerialsSameHandleIff | src/model-vbar.c:415-515 | A serial kept from a mapped page and found on it again later in any run means the same handle if and only if no fault in between left a created handle behind; serials never go back |
| VbarWindows.EqualSerialsTwoHandles | src/model-vbar.c:461-472 | A run of four steps that maps a different handle under the same serial |
| VbarWindows.UnsureStaysUnsure | src/model-vbar.c:427-441 | A page whose mapping could be neither completed nor undone is never used, freed or given another handle |
| VbarWindows.RunKeeps | src/model-vbar.c:1553-1731 | Every fault, restore, free and unpin step keeps the books |
| VbarWindows.WindowsVbar.FaultPage | src/model-vbar.c:1553-1731 | One page of a fault in place: it does exactly the specified step, succeeds exactly with the page open in the driver on its handle and one more pin, and does succeed when the driver serves it at once; the residency map agrees with what the driver has mapped |
| VbarWindows.WindowsVbar.EvictPage | src/model-vbar.c:517-582 | Freeing a page unless it is in use, or by force |
| VbarWindows.WindowsVbar.MapNewPage | src/model-vbar.c:450-513 | Creating and mapping a page, with the handle kept, released or left unsure, the residency map agreeing with the driver in each case |
| VbarWindows.WindowsVbar.RestoreMapping | src/model-vbar.c:415-448 | Mapping a kept handle again, the residency map agreeing with the driver |
| VbarWindows.WindowsVbar.Free | src/model-vbar.c:517-582 | Unmapping and releasing, where either driver call may fail, the residency map agreeing with the driver |

## Left out

Of the graph compiler:

- Host memory: allocations with `malloc` and `calloc` succeed; driver calls may fail at any point.
- GraphCompilers.GraphCompiler.Pop: the class that holds the tables covers leak-free frames and stops at a frame that leaks; from there on the compiler is modelled on values in the GraphWorld files, with loops of its own for splicing, collecting and the filtered search, so updates in place of the tables during severing and scrubbing are not captured.
- GraphCompilers.GraphCompiler.Free: takes page numbers inside the graph's range, since the source hands other pointers to somebody else before it looks at the graph.
- GraphCompilers.GraphCompiler.Push: the class carries the state that its tables show as a value, because the tree's scope events name their snapshots by that value; the source's events point to the copied tables, which are kept beside it.
- GraphSmall.AllSpansAreClear: the condition is sufficient; that it is exact is shown where every blocked span reaches past the end of the heap (GraphSmall.ClearUnlessHidden). Beyond that, whether the scan skips the last page depends on every earlier stop of the scan, which no condition short of running it describes.
- GraphExact.StaleIffHeldAtLastBreak: a scope recorded while the recorder was stale carries the stale part in its snapshot, which is why exact entry is part of the condition; GraphExact.TidyRunIsExact says when it always holds.
- GraphRebuild.AbortRegistersHeld: reads every frame's list from the tree as it was when abort began; the source severs each frame's candidates before it rebuilds the next outer frame, which GraphCollect.SeverTopKeeps shows to leave outer frames alone.
- GraphWorldPlaced.EveryRunIsSafe: a client frees inside the graph only what an open frame holds; frees of candidates and rogues go through the registry as separate steps. A severed tree may keep a free event of a leaked allocation, which such clients cannot reach.
- GraphReplay.HistoryRerun: for root frames without named scopes and without leaks; with named scopes sibling keys can repeat and the claim fails.
- Events are positions in an arena that only grows; the source frees severed events. Replacement page objects are named after the virtual page that needed them first.
- GraphWorld.FindAvailable: the remapping of a dead rogue's address that the source does inside the availability test is a step of its own here, so a run may do it at any earlier time; its failure fails the graph and ends the run.
- `peak_used`, pause and stream switching, excluded root replays, alias avoidance, destroy and the fault-injection counters.

Of reference counts and rogues:

- RefModel.MapReferenceKeeps: the address is fresh, as it is at every call site of the graph.
- RogueSafety.RogueKeepsBacking: the caller's page backs the address at the moment the new reference is given it, as handoff_rogue's caller guarantees.

Of the pager:

- RetireSafety.ReclaimIsSafe: one device; asynchronous reclaim stays enabled; a candidate array is modelled candidate by candidate and a snapshot slot by slot, which allows more interleavings than the source has; a barrier completes only after earlier work on its queue. Copy-residency holds and pageout callbacks are left out, and a capture lease hides its uses until it is released.
- Reclaim that waits for the whole context before it frees, and makes no claim from tokens, is one step that requires idle pages.
- VbarPools.VbarPool.Fault: a failed writeback is an arbitrary set of stuck pages; driver frees succeed, as the source ignores their result. The HIP address pool and the unmap workaround are left out.
- VbarOps.EqualSignaturesSamePages: serials below 2^32; beyond that signatures wrap.
- VbarWindows.BooksBalance: the Windows path is modelled page by page; which pages the asynchronous reclaim picks is part of the Retire files.

Of the UR ledger:

- UrSafety.RetireKeeps: retiring and replacing the context are one step, and enabling happens on the new context; the lock-free read of the enabled flag is one with the decision it guards.

Of the VMM manager:

- `snapshot`, and the host's out-of-memory answer while a list grows.
- VmmSafety.RunKeeps: Level Zero returns page-aligned reservations apart from the context's live ones, and handles that are not live; this is the assumption DriverSound.

Not modelled at all: function hooking, symbol resolution, stack classification, tracing, budget polling, SYCL copies, host buffers, file readers, transfer threads and the Python layer.
