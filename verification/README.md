# MacSim: memory system, core and cache models

MacSim is a cycle-level simulator of CPUs and GPUs. This Dafny project models four of its components
and proves what holds of them over every run: the built-in DRAM controller (`src/dram.cc`), the MSHR and
cache-queue protocol with its network and clients (`src/memory.cc`, `src/noc.cc`, `src/exec.cc`), the
out-of-order core from register mapping to retirement (`src/map.cc`, `src/allocate.cc`, `src/pqueue.h`, `src/rob.cc`, `src/schedule.cc`, `src/retire.cc`) and a
cache set with its address arithmetic (`src/cache.cc`).

Each component comes in three layers:

- a specification on values, one function per step, with runs as sequences of states and steps
  (`DramModel` and `DramRuns`, `MemModel`, `Noc`, `CoreModel`, `StoreIndex`, `CacheSets`, `ChildUops`);
- a class whose methods update fields, arrays and lists in loops as the source does, each proved equal to
  the step of the specification (`DramController`, `MemController`, `CorePipeline`, `PQueues`, `Robs`,
  `StoreIndex.StoreHash`, `Noc.Network`, `CachePartition.CacheSet`, `ChildUops.ParentUop`); the table names the
  methods with loops and the ones that combine several steps;
- theorems about all runs of the specification (the other modules).

What the environment decides is a parameter of a step, so a theorem about all runs holds for every
choice: cache hits and victims, free ports, callback failures, whether the network or a controller takes
a packet, which scheduled uop is tried and what `exec` answers, and when fills arrive.

| component | modules | main theorems |
|---|---|---|
| DRAM controller | `Dram*` | bounded service and starvation, conservation and single exit, what is flushed, merged and freed, command protocol, one command a cycle, peak bandwidth, output order, lossless decoding |
| MSHR, queues and network | `Mem*`, `Noc`, `ChildUops` | merge forest, one place per request, exactly-once completion and delivery, no completion without data, when demands are refused, child accounting |
| core | `PQueue`, `Rob`, `Core*`, `StoreIndex` | dataflow order and when uops execute, retirement of done uops only and in order, alloc-queue indices, when uops are allocated, exact store index |
| cache | `Cache*`, `Bits` | LRU against a touch stack, partition quotas, sets and tags of tiled addresses |

To check everything: `dafny verify dfyconfig.toml`.

## Where the code departs from what it seems to promise

- Banks beyond `channels * (banks / channels)` belong to no channel and are never served
  (`DramProgress.BoundedIffServed`).
- `m_num_completed_in_last_cycle` is overwritten by the cycle number in a merge and truncated to `int`, so it
  can read zero in a cycle that completed requests (`DramCompletion.ReadsZeroIff`), and the starvation counter
  can then reach 5000 with a service bound below that (`DramLateRun.StarvesAfterMisread`).
- `num_mc & (num_mc - 1) == 0` parses as `num_mc & ((num_mc - 1) == 0)`, true only for one controller; the
  division path is used for all other counts, and is what is modelled. `m_num_l3` has the same guard.
- The row index is an `int`: very large addresses alias (`DramAddress.WideRowsAlias`); bank mixing with a
  number of controllers that is no power of two makes addresses share a location
  (`DramAddress.XorLosslessIff`).
- An MSHR of more than 1024 entries can lose a request (`MemClaims.LargeBufferLoses`).
- The network's CPU lists take the requests marked `m_ptx`, that is the GPU's, and the GPU lists the others
  (`Noc.Lane`).
- The instruction-cache wrapper fills the leader's line at every attempt (`MemCalls.FetchEffects`,
  `MemCalls.LeaderFillsTwice`).
- A child access that is a tracked software prefetch is counted by `exec` and by its fill, so a prefetch parent
  can complete early or never (`ChildUops.CountedOnceIff`, `SetOnceIff`, `CompletesEarly`, `CompletesNever`).
- A tracked software prefetch keeps a pointer to its uop object, retires, and its fill writes the done cycle of
  whatever uop the object holds by then. Order of retirement and resources do not depend on that. Alloc-queue
  indices survive unless a fill finds a uop that has not executed, and dataflow order unless it finds that or a
  done uop with destination registers; both conditions are exact (`CoreStrikes.IndicesIff`, `OrderIff`).
- The early-out of `uop_schedule` reads the done cycle of the object a uop last waited for, even when that object has
  been given to another uop since: a uop with every source finished can wait for a younger one
  (`CoreStale.HeldBackIff`, `HeldBackByYounger`).
- The byte loop of `add_store_deps` cannot pick a store numbered zero and compares 32-bit numbers
  (`StoreIndex.LookupRightIff`, `FirstStoreMissed`); stores of the previous quadword, and older stores behind a
  younger one at the same byte, are not found (`DependenceFoundIff`, `SpillMissed`).
- The LRU search starts from MAX_INT, so once all times reach it way 0 is taken (`CacheSets.VictimIsLruIff`,
  `VictimNotOldest`).
- Tiles interleaved finer than a line make lines share tile, tag and set (`CacheAddress.FineTilesAlias`).

## Assumptions

- `m_total_req` and `m_starvation_cycle` start at zero, as do a cache set's line counts, and a new store-index
  entry starts cleared; the constructors do not set them.
- A `Counter` set to ULLONG_MAX is the value `Never`; counters and byte addresses are unbounded otherwise,
  except where the source narrows them to `int` or `unsigned`, which is modelled.
- `std::list::sort` is a stable insertion sort.
- `IsRun` of the DRAM controller lets the memory system change type, address and size of a request between
  cycles, as promotion of a prefetch does, but not turn one into a write-back.
- `Wired` of the memory system says that L2 caches complete requests and L3 caches do not, as in every topology of
  the source.
- Access times of a cache set strictly increase and a line is inserted only after a miss, as `src/cache.h:227-228`
  requires.

## Model

| member | source | states |
|---|---|---|
| `DramService.SelectedCompletesInTime` | src/dram.cc:941-1038 | In every run with requests of at most `m` bytes, a request current in a served bank was selected at most `Bound` cycles ago: three command slots contended by the banks of the channel, the three latencies and `n + 1` bus transfers. |
| `DramService.RunTimely` | src/dram.cc:880-1038 | The timing invariant behind that bound (each bank is where its age and its rank among older timestamps allow) holds in every state of every run. |
| `DramTiming.OldestIsFirst` | src/dram.cc:944-965 | The arbiter picks a waiting bank ahead, by timestamp and then index, of every other waiting bank, and picks none only if none waits. |
| `DramTiming.CmdPhase` | src/dram.cc:941-986 | The command phase of a cycle keeps every deadline and leaves no bank waiting that was due before the cycle. |
| `DramTiming.DataPhase` | src/dram.cc:990-1038 | So does the data phase, in which the oldest waiting bank is granted the bus each time it is free. |
| `DramTiming.CompletePhase` | src/dram.cc:609-695 | Completion keeps the deadlines and leaves nothing due. |
| `DramTiming.SelectPhase` | src/dram.cc:880-913 | Selection stamps a bank anew and keeps the deadlines, so that the next cycle starts from them. |
| `DramProgress.StarveWithin` | src/dram.cc:537-552 | In every run the starvation counter stays within `Limit`, one more than the service bound, as long as no cycle misreads. |
| `DramProgress.StarveBounded` | src/dram.cc:537-552 | And at all times within twice that plus the number of banks, because a misread happens only just before the cycle number wraps. |
| `DramProgress.NeverStarves` | src/dram.cc:537-552 | With all banks served and the bound below 5000 the assertion of `progress_check` fires, in any run, only after a cycle that misread. |
| `DramProgress.NeverStarvesEarly` | src/dram.cc:537-552 | So with the bound below 5000 it does not fire without merging, nor before the cycle number is within the number of banks of 2^32. |
| `DramProgress.NeverStarvesAtAll` | src/dram.cc:537-552 | With twice the bound plus the number of banks below 5000 it never fires, in any run. |
| `DramProgress.BoundedIffServed` | src/dram.cc:941-965 | A bank has a bound on the service of a selected request if and only if some channel serves it, that is, unless the number of banks is not a multiple of the number of channels and the bank lies in the remainder. |
| `DramProgress.UnservedStuck` | src/dram.cc:941-965 | A request selected in a bank that no channel serves stays there through any number of cycles. |
| `DramCompletion.CompletedIs` | src/dram.cc:609-695 | What `m_num_completed_in_last_cycle` holds after any number of banks: the number of completing banks, or, from the last completing bank that merged on, that number plus the cycle; truncated to 32 bits. |
| `DramCompletion.ReadsZeroIff` | src/dram.cc:609-695 | In a cycle that completes something it reads zero if and only if some completing bank merged and the cycle plus the number of banks completing from the last such one on is 0 modulo 2^32. |
| `DramLateRun.CompletedReadsZero` | src/dram.cc:624-652 | A run of a one-bank controller with such a cycle: two merged reads complete in cycle 2^32 - 1. |
| `DramLateRun.StarvesAfterMisread` | src/dram.cc:537-552 | A run of the same controller in which the starvation counter then reaches 5000 although the bound is 4006. |
| `DramConservation.RunConserved` | src/dram.cc:463-913 | In every state of every run the controller is conserved: each entry object is in exactly one place of its bank, fields agree with the bank's state, `m_total_req` is the number of requests held, every accepted request is in exactly one place and the delay buffer is sorted by ready cycle. |
| `DramExits.BankBooks` | src/dram.cc:463-913 | Spelled out for a bank: free, buffered and current entries add up to the buffer size, buffered entries are in DRAM_INIT, and a finite data-ready time is had exactly in DRAM_DATA_WAIT (data-available exactly in DRAM_DATA); `m_total_req` is the sum over the banks. |
| `DramExits.LeavesOnce` | src/dram.cc:463-478 | At any time of any run an accepted request is inside once or has left once, by injection, write-back release or prefetch flush; having left it never comes back nor leaves again; others do neither. |
| `DramConservation.CompletesInDataWait` | src/dram.cc:609-622 | The state assertion of completion cannot fail. |
| `DramConservation.DelayReleasesAllReady` | src/dram.cc:698-714 | Stopping at the first request that is not ready, `delay_packet` still releases exactly the ready ones, in order. |
| `DramFlush.FlushSaid` | src/dram.cc:463-478 | A flush frees the bank's buffered entries of kind `MRT_DPRF`, in order, and nothing else; the buffer keeps exactly its entries of other kinds, in order. |
| `DramFlush.InsertSaid` | src/dram.cc:434-458 | An arrival is refused if and only if the bank has no free entry and no buffered prefetch; prefetches are flushed exactly when there is no free entry; an accepted request joins the end of the buffer with its address, row and column and the cycle. |
| `DramFlush.CompleteSaid` | src/dram.cc:609-695 | A bank whose data is through finishes, with merging, exactly its buffered entries to the same address, and its current one: write-backs are freed, the others go to the output buffer, or become ready after exactly the additional latency; every other entry stays, in order. |
| `DramFlush.CycleSends` | src/dram.cc:499-532 | A cycle injects only what waited in the output buffer when it began, and what it accepts is still buffered when it ends. |
| `DramKinds.RunKinds` | src/dram.cc:463-478 | In every state of every run whatever was freed is a write-back or a prefetch, and no write-back was injected or waits to be. |
| `DramKinds.DemandLeavesBySending` | src/dram.cc:434-478 | In every run a request accepted as neither a write-back nor a prefetch keeps its kind and is never freed: from then on it is inside once, or was injected once. |
| `DramChannel.OneCommandPerCycle` | src/dram.cc:941-986 | In every run, whatever its banks want, a channel issues at most one command in any cycle. |
| `DramChannel.GrantsExactly` | src/dram.cc:990-1073 | The bytes granted in a cycle are exactly those of the requests whose data the channel begins to transfer, so the bandwidth bounds are about real traffic. |
| `DramChannel.BusNeverWasted` | src/dram.cc:990-1038 | No cycle leaves a channel's bus free while one of its banks has data waiting for it. |
| `DramProtocol.RunObeysProtocol` | src/dram.cc:609-986 | The command log of every bank in every run is accepted by an independent monitor: activate only on a closed bank, column only on the matching open row, precharge only on another row, each command at least the previous one's latency later, nothing while a transfer is outstanding. |
| `DramProtocol.EveryRequestServedOnce` | src/dram.cc:941-986 | In an accepted log every completed request was served by exactly one of column, activate-column and precharge-activate-column. |
| `DramBus.BandwidthWindow` | src/dram.cc:1042-1073 | Between any two states of a run the bytes granted on a channel are at most the bus width times the cycles newly promised, plus what was left of the first one. |
| `DramBus.PeakBandwidth` | src/dram.cc:1052-1073 | In every state of every run `1 <= m_byte_avail <= m_bus_width`, and bytes granted plus `m_byte_avail` fit in the bus width times `m_dbus_ready + 1`. |
| `DramOutput.SendFifoPerClass` | src/dram.cc:716-797 | Of each of the CPU and GPU classes the requests injected are those before the first one not injected, and only accepted ones are. |
| `DramOutput.SendPrefix` | src/dram.cc:716-797 | Without partitioned channels exactly the requests before the first refusal go. |
| `DramOutput.SendPartitioned` | src/dram.cc:716-797 | With partitioned channels, exactly which requests go: all before the first refusal, and of the other class, if it had not been tried, those up to its own first refusal. |
| `DramOutput.SecondPass` | src/dram.cc:732-791 | The second pass injects its class up to the first refusal within it and nothing else. |
| `DramOutput.MergeLeavesNone` | src/dram.cc:624-657 | After a completion with merging, no request to the same address is buffered anywhere in the controller. |
| `DramOutput.RunHome` | src/dram.cc:398-458 | In every run a request waits only in the bank its address decodes to; merging one bank's buffer is therefore enough. |
| `DramOutput.HeadIsFirstBest` | src/dram.cc:1128-1164 | FR-FCFS takes an entry that none ranks before, and strictly better than every one queued earlier. |
| `DramOutput.BufferSorted` | src/dram.cc:1128-1164 | It leaves the buffer sorted: demands before prefetches, row hits first, then age. |
| `DramOutput.HeadSaid` | src/dram.cc:1128-1164 | So FR-FCFS takes a demand if there is one, of those or else of the prefetches a hit on the open row if there is one, and of those the oldest. |
| `DramOutput.SelectSaid` | src/dram.cc:880-913 | An idle bank takes the request that came first under FCFS and that head under FR-FCFS, keeps all others, and wants a command from this cycle on. |
| `DramOutput.ReadySaid` | src/dram.cc:880-913 | A busy bank whose command latency has passed wants its next command and lines up by the current cycle; any other busy bank, and an idle one with nothing buffered, is left alone. |
| `DramLists.DropByObject` | src/dram.cc:463-478 | Removing collected entries from a buffer one object at a time leaves exactly the others, in order. |
| `DramLists.SentByObject` | src/dram.cc:793-797 | The same for requests removed from the output buffer after a pass. |
| `DramLists.TwoPasses` | src/dram.cc:716-797 | The two separate passes inject together exactly what the single scan of the specification selects, so no request goes twice. |
| `DramAddress.DecodeLossless` | src/dram.cc:408-425 | Without bank mixing controller, row, bank and column determine the address, and are determined by it, for any number of controllers, as long as rows fit in 31 bits. |
| `DramAddress.DecodeCompose` | src/dram.cc:408-425 | Lines go to the controllers in turn, then to the banks, then to the next row: the address composed of a controller, row, bank and column decodes to them. |
| `DramAddress.MixedBank` | src/dram.cc:408-431 | Bank mixing flips a bit of the bank number exactly when the address bit as far above the mixing shift is set. |
| `DramAddress.XorDecodeLossless` | src/dram.cc:408-431 | With bank mixing the same, if the number of controllers is a power of two and the mixed bits lie above the bank bits. |
| `DramAddress.XorLosslessIff` | src/dram.cc:408-431 | With the mixed bits above row buffer, controllers and banks, decoding is lossless for all rows that fit in 31 bits if and only if the number of controllers is a power of two, except where mixing does nothing: one bank, or mixed bits above every such address. |
| `DramAddress.XorAlias` | src/dram.cc:408-431 | Otherwise two addresses that share a location, for every such number of controllers and every layout. |
| `DramAddress.RowAssertion` | src/dram.cc:427-429 | The assertion `rid >= 0` holds of all addresses below a limit if and only if the limit is at most 2^31 row spans. |
| `DramAddress.WideRowsAlias` | src/dram.cc:416-425 | Addresses 2^32 row spans apart decode alike, because the row is an `int`. |
| `DramAddress.DecodedBank` | src/memory.cc:2798-2804 | Decoding names an existing bank, the same for the same address: the condition under which `RunHome` applies. |
| `DramController.Controller.constructor` | src/dram.cc:195-245 | A controller starts in the initial state, with all entries free and all banks idle. |
| `DramController.Controller.RunACycle` | src/dram.cc:499-532 | One cycle in place is the specification's `Tick`, and keeps conservation. |
| `DramController.Controller.InsertNewReq` | src/dram.cc:434-458 | Insertion in place equals `Insert`: it flushes the bank's prefetches when its buffer is full and refuses only if it still is. |
| `DramController.Controller.FlushPrefetch` | src/dram.cc:463-478 | Flushing in place equals `Flush`; `DramFlush.FlushSaid` says what that frees and keeps. |
| `DramController.Controller.PickBank` | src/dram.cc:944-965 | The arbiter loop finds the bank the specification calls oldest. |
| `DramController.Controller.ChannelScheduleCmd` | src/dram.cc:941-986 | The command loops over arrays equal the specification, channel after channel. |
| `DramController.Controller.AcquireDataBus` | src/dram.cc:1052-1073 | The bus state and the ready cycle after one grant. |
| `DramController.Controller.ChannelScheduleData` | src/dram.cc:990-1038 | The data loops equal the specification and terminate. |
| `DramController.Controller.BankScheduleComplete` | src/dram.cc:609-695 | The completion loop equals the specification, merges and counters included. |
| `DramController.Controller.BankScheduleNew` | src/dram.cc:880-913 | The selection loop equals the specification. |
| `DramController.Controller.DelayPacket` | src/dram.cc:698-714 | The loop from the front of the delay buffer equals the specification. |
| `DramController.Controller.SendPacket` | src/dram.cc:716-797 | The passes over the output buffer equal the one-scan specification. |
| `DramController.Controller.ProgressCheck` | src/dram.cc:537-552 | The counter after one check. |
| `MemRun.RunInv` | src/memory.cc:1970-2114 | The memory invariant (pools, merge forest, places, stages, effects) holds in every state of every run of requests, queue loops, deliveries, controller replies and drops, whatever caches, ports, callbacks and flow control answer. |
| `MemRun.MergeForest` | src/memory.cc:1980-2103 | In every state of every run a merged request's leader is alive, covers its range, belongs to the same core and precedes it in the MSHR list, is itself unmerged, is no prefetch or write-back, lists it, and the request has no followers. |
| `MemRun.SearchNeverMerged` | src/memory.cc:2132-2142 | In every state of every run `search_req` finds only a live unmerged request that covers the range. |
| `MemRequest.SearchFirst` | src/memory.cc:2132-2142 | The search returns the first request of the list that covers the range, if any. |
| `MemRequest.LeaderPrecedes` | src/memory.cc:2132-2142 | A leader comes earlier in its core's list than its followers. |
| `MemRequest.HostSurvives` | src/memory.cc:2528-2543 | A leader chosen before a prefetch flush is still live and unchanged after it, and is no free entry, so not the one allocated next. |
| `MemRequest.RoomInL2` | src/memory.cc:344 | With at most 1024 entries a core's L2 input queue has room whenever an entry is free. |
| `MemRequest.EnterQueueKeeps` | src/memory.cc:2110-2113 | So the ignored result of `insert` is true, and the invariant holds after it. |
| `MemRequest.NewReqKeeps` | src/memory.cc:1970-2114 | `new_mem_req` as a whole keeps the invariant: promotion, merging, flushing and refusal included. |
| `MemRun.ExactlyOnePlace` | src/memory.cc:771-964 | With at most 1024 entries a core, after every step of every run each live unmerged request is in exactly one queue, the network or a controller, once, and every other request in none. |
| `MemRun.NoneLost` | src/memory.cc:2280-2303 | Every id ever issued belongs to a live request and was never freed, or to none and was freed exactly once. |
| `MemRun.ExactlyOnce` | src/memory.cc:139-163 | Under any callback failures and retries: a freed demand with the data-cache callback took effect exactly once, a prefetch at most once, a live request not yet. |
| `MemClaims.WrapperAttempt` | src/memory.cc:139-163 | One call of the wrapper: it returns true only with the merge list empty and the leader's own effect done, once; every merged request is served and freed, or untouched; after a failure the state can be retried from. |
| `MemFill.DrainKeeps` | src/memory.cc:139-163 | Serving the merge list keeps the invariant and empties the list exactly when every callback succeeded. |
| `MemFill.CallbackKeeps` | src/memory.cc:139-163 | A request's own callback, whichever it is, does too. |
| `MemVisit.FreeIsRelease` | src/memory.cc:2280-2303 | `free_req` of a completed request finds its merge list empty, so it only releases the entry. |
| `MemVisit.ProcessKeeps` | src/memory.cc:771-1484 | A whole pass of any of the four queue loops keeps the invariant. |
| `MemRoutes.MissGoesDown` | src/memory.cc:895-937 | In a visit of an input queue a request whose cache is disabled, bypassed or without the line is not completed, calls nobody and has no effect: it moves to the input queue of the next cache if that is wired, else to the output queue as a new request, or stays because that queue is full. |
| `MemRoutes.HitGoesUp` | src/memory.cc:825-893 | A request whose line is there never goes down: a write-back is done; a cache that completes calls the request's callback, whose answer decides; an L3 sends a fill to the wired L2 or to the output queue. |
| `MemRoutes.FillVisited` | src/memory.cc:1175-1424 | A visit of a fill queue: a new fill of an enabled cache without the line needs a write port and may evict a line; then the request is completed, or goes up as a fill, or waits in the state from which just that is tried again. |
| `MemRoutes.OutEntersNoc` | src/memory.cc:1084-1170 | A ready message enters the network exactly when that takes it: new requests addressed to the next cache or to memory, fills to the cache above, write-backs below. |
| `MemRoutes.WriteBackGoesDown` | src/memory.cc:1429-1484 | A write-back goes to the fill queue of the wired next cache or to the output queue, or stays because that is full. |
| `MemRoutes.PacketArrives` | src/memory.cc:2225-2272 | A packet is put in the fill or input queue it is addressed to if that has room; a memory controller that cannot take a prefetch frees it and leaves any other in the network. |
| `MemRoutes.DoneIff` | src/memory.cc:1489-1560 | The L1 callback succeeds and takes effect if and only if its write-back queue has room and the cache is off or has a free port. |
| `MemRoutes.EvictedWaits` | src/memory.cc:1535-1562 | An evicted dirty line becomes a new write-back request for its own address, core and L3, in the write-back queue of the cache. |
| `MemRoutes.ReplyReturns` | src/dram.cc:716-797 | What memory sends back is addressed to the L3 of its request. |
| `MemRoutes.ScanStops` | src/memory.cc:771-940 | A loop visits the requests of its queue in order up to the first point at which four are handled or, for fills, the write-back queue is full, and to the end if there is none. |
| `MemAnswers.AnsweredFirst` | src/memory.cc:771-1484 | In every run a request, not a write-back, that stands in a fill queue, waits in an output queue to go up or travels to a fill queue was found in a cache, or sent back by memory, before. |
| `MemAnswers.CalledWithData` | src/memory.cc:825-937 | In every run each callback called is of a request whose line is found in the cache then, or which was found or sent back by memory before, or of one that waits for such a request: a miss completes nobody. |
| `MemClaims.IcacheAttempt` | src/frontend.cc:72-102 | One attempt of an instruction-cache leader takes effect once, and succeeds exactly if it empties the merge list. |
| `MemCalls.CallbackEffects` | src/frontend.cc:72-102 | In every state of every run an id has taken effect as often as its instruction-cache callback was called, or, for data-cache callbacks, once if the last call succeeded and else never; no call follows one that succeeded. |
| `MemCalls.FetchEffects` | src/frontend.cc:72-102 | A freed instruction fetch was called until it succeeded, and took effect as often as it was called: once if and only if the first call succeeded. |
| `MemCalls.LeaderFillsTwice` | src/frontend.cc:72-102 | A run in which such a leader takes effect twice before it is freed. |
| `MemQueue.PushOrdered` | src/memory.cc:310-321 | A push is refused, and changes nothing, exactly when the queue is full; otherwise the queue gains the request once and is ordered by class and priority, the others keeping their order and the request standing behind those it is not ahead of. |
| `MemQueue.RankSaid` | src/memory.cc:241-272 | So after a push the favoured class, if there is one, comes first, and within a class no request stands before one of higher priority. |
| `MemClaims.DemandTracked` | src/memory.cc:1970-2114 | `new_mem_req` answers true to a demand exactly when a live request of its kind, range, priority and callback now stands for it, new or a promoted prefetch, and false only if no entry was free. |
| `MemAsks.RefusedIff` | src/memory.cc:1983-2055 | A demand is refused if and only if the search finds no prefetch to promote, its core has no free entry, and no prefetch of the core stands in a queue and could be flushed. |
| `MemAsks.PrefetchIssuedIff` | src/memory.cc:1977-2055 | A prefetch is never refused, and is issued if and only if prefetching is not suspended, no live request of the core covers it, and an entry is free, or none is but the L2 queue is full and the flush that triggers frees one. |
| `MemAsks.FlushExactly` | src/memory.cc:2528-2543 | A flush frees exactly the core's prefetches that stand in a queue and changes no other live request. |
| `MemAsks.MergeSaid` | src/memory.cc:2088-2103 | A merged request is the last its leader lists, and the leader's priority becomes the higher of the two. |
| `MemClaims.LargeBufferLoses` | src/memory.cc:2110-2113 | With any larger MSHR there is a run that loses a request: alive, unmerged and in no place. So 1024 is exact. |
| `MemController.MemorySystem.constructor` | src/memory.cc:1715-1722 | All entries free, all queues empty. |
| `MemController.MemorySystem.SearchReq` | src/memory.cc:2132-2142 | The list walk finds what `Search` finds. |
| `MemController.MemorySystem.AllocateNewEntry` | src/memory.cc:2118-2180 | Takes the last free entry and numbers it, or reports that there is none. |
| `MemController.MemorySystem.FlushPrefetch` | src/memory.cc:2528-2543 | Frees exactly the core's prefetches that have no followers and are in a queue. |
| `MemController.MemorySystem.Sorted` | src/memory.cc:241-272 | The stable sort by class and priority. |
| `MemController.MemorySystem.Scan` | src/memory.cc:771-940 | The first half of a loop: requests are visited in order until four are done, or for fills until the write-back queue is full. |
| `MemController.MemorySystem.ProcessQueue` | src/memory.cc:771-964 | A whole loop, with the removal pass after it; `MemRoutes` says where each visit leads and `MemAnswers` what that means for runs. |
| `Noc.RunOk` | src/noc.cc:75-180 | Every list of the network holds, in order of insertion, packets of its own direction and kind, and each packet inserted is in one list or has arrived. |
| `Noc.InsertSaid` | src/noc.cc:75-102 | A packet joins the end of one list, due ten cycles later: of the upward ones exactly if its source is numbered above its destination, and of the second of the two exactly if the kinds have lists of their own and it is not marked `m_ptx`. |
| `Noc.DeliveredOnce` | src/noc.cc:75-180 | In every state of every run each packet inserted waits in the list of its trip, and no other, or has arrived, once and at least ten cycles after its insertion; never both, never neither. |
| `Noc.CycleTriesAll` | src/noc.cc:106-180 | A cycle offers every packet that is ready, though each loop stops at the first that is not; after it exactly those wait on that were not ready or refused, in their order. |
| `Noc.TriesAllReady` | src/noc.cc:110-116 | The packets before the first unready one are all the ready ones of the list. |
| `Noc.Network.InsertPacket` | src/noc.cc:75-102 | Appends the packet to its list; never refuses. |
| `Noc.Network.DrainList` | src/noc.cc:110-123 | The two loops over one list, with removal entry by entry, split it as the specification does. |
| `Noc.Network.RunACycle` | src/noc.cc:106-180 | The lists in turn; the GPU lists are skipped when they are the CPU lists. |
| `ChildUops.ChildrenOnce` | src/exec.cc:320-419 | In every run of attempts and fills without tracked prefetches each child is issued and counted at most once, all are counted exactly when none is pending or out, and the parent's completion has been set once then and not before. |
| `ChildUops.LastSets` | src/memory.cc:1580-1607 | The step that settles the last child sets it, be it `exec`, at least the minimum latency ahead, or the last fill, one cycle ahead. |
| `ChildUops.SetsCycle` | src/memory.cc:1580-1607 | In every run, tracked prefetches or not, what the event that sets the completion sets it to: `exec` to the longest of the minimum latency and the latencies of the children it issues then, a fill to the next cycle. |
| `ChildUops.CountedOnceIff` | src/exec.cc:340-396 | In every run, once nothing is left to do, all children have been counted exactly once if and only if none was given a tracked request for a software prefetch. |
| `ChildUops.SetOnceIff` | src/exec.cc:368-419 | When an attempt has issued the last child of a prefetch parent, the completion is set once in the end if and only if no fill came before or one brought the count to exactly the number of children; it is never set twice. |
| `ChildUops.CompletesEarly` | src/exec.cc:368-419 | A run of a prefetch parent that completes while a child has not been issued. |
| `ChildUops.CompletesNever` | src/exec.cc:368-419 | A run of a prefetch parent whose children are all issued and filled and that never completes. |
| `ChildUops.NextSetBit` | src/utils.cc:167-177 | The first set bit from a position on, or -1 exactly if there is none. |
| `ChildUops.ParentUop.Attempt` | src/exec.cc:320-419 | The loop over set bits equals the specification over children. |
| `CoreRun.RunInv` | src/retire.cc:124-294 | The whole invariant holds in every state of every run in which no fill finds a uop that has not executed, or a writer that was done. |
| `CorePlaces.RunPlaces` | src/retire.cc:124-294 | Its part about the window, order, resources and queue priorities holds in every state of every run whatever. |
| `CoreStages.RunStages` | src/schedule.cc:293-372 | Its part about stages, alloc queues and the scheduler holds in every run in which no fill finds a uop that has not executed. |
| `CoreRun.DataflowOrder` | src/schedule.cc:117-285 | In every run whose fills find neither a uop that has not executed nor a writer that was done: a non-bogus uop reaches `exec` only if, for every source register of its instruction, the last earlier writer in its thread's program has retired, or has executed with a done cycle no later than now, although objects are recycled at will. |
| `CoreTimes.DataflowDone` | src/schedule.cc:117-285 | And that writer was done by then even if it has retired since: some earlier state has it in flight with a done cycle no later than its clock. |
| `CoreTimes.ReachesIff` | src/schedule.cc:183-230 | A bogus uop always reaches `exec`; another does if and only if a port is free and it was marked ready, or the producer it last waited for, if any, has a done cycle no later than now and no source is a uop in flight that is not done. |
| `CoreTimes.CheckRecords` | src/schedule.cc:138-178 | A check that fails records the first unfinished source, unless the producer recorded before has a done cycle no earlier, and changes nothing else. |
| `CoreStale.HeldBackIff` | src/schedule.cc:207-228 | A uop with a free port and every source finished is nevertheless held back if and only if it is not marked ready and the object of the producer it last waited for holds a done cycle still to come; that object is then none of its sources any more. |
| `CoreStale.HeldBackByYounger` | src/schedule.cc:207-228 | A run without any fill in which that happens: the writer retired, and its object holds a younger uop that is done a hundred cycles later. |
| `CoreRun.NoPrefetchHits` | src/exec.cc:508-515 | Every run without tracked software prefetches is of that kind: each fill finds the uop that waits for it. |
| `CoreStrikes.OrderIff` | src/memory.cc:1579-1585 | For every set of kinds of fills (object pooled; uop not executed; executed and not done; done, with or without destination registers): all runs with such fills execute in dataflow order if and only if the set has neither the second kind nor the last one with destinations. |
| `CoreStrikes.LateWriter` | src/memory.cc:1579-1585 | A run in which a fill puts off a writer that was done and its reader, already marked ready, reaches `exec` before it. |
| `CoreStrikes.EarlyWriter` | src/memory.cc:1579-1585 | A run in which a fill gives a writer a done cycle before it executes, and the reader overtakes it. |
| `CoreStrikes.IndicesIff` | src/allocate.cc:156-211 | All runs with such fills keep every index in an alloc queue that of a live entry if and only if the set lacks the second kind. |
| `CoreStrikes.IndexDangles` | src/retire.cc:124-178 | A run in which a uop struck in an alloc queue retires and leaves its index there. |
| `CoreDeps.ExecOnlyWhenReady` | src/schedule.cc:117-230 | The step behind it, from the dependence invariant alone. |
| `CoreDeps.NotBlockingDone` | src/schedule.cc:138-165 | A source that does not block has its writer retired or done: the object's valid flag and number tell staleness. |
| `CoreDeps.BlockingHolds` | src/schedule.cc:138-165 | Conversely a source blocks only while the recorded uop itself is in flight and not done. |
| `CoreDeps.FetchDeps` | src/map.cc:241-312 | Mapping a uop makes its sources the last writers in its program and keeps every older link, though its object is reused. |
| `CoreSteps.ExecKeeps` | src/allocate.cc:98-215 | Every step keeps the whole invariant, fills of those two kinds apart. |
| `CorePlaces.ExecPlaces` | src/allocate.cc:98-215 | Every step, fills of any kind included, keeps its part about places, order and resources. |
| `CoreRun.IndicesNameUops` | src/allocate.cc:156-211 | In every run in which no fill finds a uop that has not executed, the indices in an alloc queue are, each once, those of exactly the live entries whose uop waits in that queue. |
| `CoreRun.IndexKeepsUop` | src/allocate.cc:156-211 | In such runs no step changes the uop an index in an alloc queue stands for. |
| `CoreRun.RetiresInOrder` | src/retire.cc:124-294 | In every run what was fetched is what retired followed by what is in flight, in order, and each thread retires in program order. |
| `CoreTimes.RetiredWereDone` | src/retire.cc:124-178 | In every run every uop that retired was, when it did, the oldest and had a done cycle above 0 and no later than the clock. |
| `CoreTimes.LatencyKept` | src/exec.cc:320-520 | In every run without tracked prefetches a uop that `exec` answers with a latency of n cycles retires no earlier than n cycles later. |
| `CoreTimes.MissWaits` | src/memory.cc:1579-1585 | And a uop that misses retires only in a later cycle than some fill for it. |
| `CoreRun.ResourcesConserved` | src/rob.h:170-217 | In every run free load buffers, store buffers and registers and their live holders add up to the configured totals, and no count leaves its range. |
| `CoreRoom.AllocatesIff` | src/allocate.cc:98-160 | In every run the oldest uop of the front end is allocated if and only if it is through its stages, the reorder buffer has room, the uops in flight leave over the buffer or register its kind needs, and the queue of its kind is below its bound. |
| `CoreRoom.FetchedSaid` | src/map.cc:277-312 | A fetched uop is the last of its thread's program and of the front end, has no done cycle and no mark, and changes no other uop. |
| `CoreRoom.AllocatedSaid` | src/allocate.cc:162-205 | It then leaves the front end, becomes the youngest entry, holds what its kind needs, and its index joins the end of that queue and of no other. |
| `CoreRoom.MovedSaid` | src/schedule.cc:293-372 | A uop that leaves its queue is finished at once exactly when it is bogus or has a done cycle; any other is listed behind those listed before. |
| `CorePipeline.AllocatesSaid` | src/allocate.cc:98-160 | The width loop ends with the width used up or at a uop that does not fit, not before. |
| `CorePipeline.MovesSaid` | src/schedule.cc:293-372 | Uops leave an alloc queue until it is not ready or the limit is reached, not before. |
| `CorePipeline.RetiresSaid` | src/retire.cc:124-178 | The uops that retire in a cycle are the longest run of done ones from the oldest on that fits the width. |
| `CorePipeline.Pipeline.constructor` | src/rob.cc:58-91 | An empty core. |
| `CorePipeline.Pipeline.FetchUop` | src/map.cc:277-284 | Sources are read before the uop becomes the last writer of its destinations. |
| `CorePipeline.Pipeline.ReadRegMap` | src/map.cc:287-312 | One source per source register, from the map. |
| `CorePipeline.Pipeline.UpdateRegMap` | src/map.cc:241-270 | Every destination now maps to the uop. |
| `CorePipeline.Pipeline.CheckSrcs` | src/schedule.cc:117-178 | The loop that stops at the first blocking source, with its two marks. |
| `CorePipeline.Pipeline.UopSchedule` | src/schedule.cc:183-285 | The early-out, the check and the ports in place; `CoreTimes.ReachesIff` says when `exec` is reached. |
| `CorePipeline.Pipeline.Advance` | src/schedule.cc:293-372 | Moves uops from an alloc queue to the scheduler until the queue is not ready or a limit is reached, as the specification does. |
| `CorePipeline.Pipeline.AllocateCycle` | src/allocate.cc:98-215 | The width loop in place; `CorePipeline.AllocatesSaid` says where it stops. |
| `CorePipeline.Pipeline.RetireCycle` | src/retire.cc:124-294 | Retires a number of the oldest uops, each done by now, and stops only at an empty buffer, at the width, or at a uop whose done cycle is 0 or lies ahead. |
| `PQueues.EnqueueFifo` | src/pqueue.h:121-147 | With equal priorities an entry joins at the end of the queue. |
| `PQueues.DequeueFifo` | src/pqueue.h:152-170 | The entry taken is the first. |
| `PQueues.AdvanceFifo` | src/pqueue.h:175-187 | Aging reorders nothing. |
| `PQueues.RankedSorted` | src/pqueue.h:132-144 | With any priorities a bucket stays sorted, and an entry goes behind its equals. |
| `PQueues.AtLeastLatency` | src/pqueue.h:175-187 | An entry is `k` buckets from the front only after at least latency minus `k` agings. |
| `PQueues.ReadyInTime` | src/pqueue.h:175-187 | A queue with an entry becomes ready after exactly as many agings as empty buckets stand before its first entry, at most the latency. |
| `PQueues.ReadyStays` | src/pqueue.h:175-187 | Aging a queue that is ready changes nothing. |
| `PQueues.PQueue.Put` | src/pqueue.h:121-147 | The ring of buckets in place: an enqueue. |
| `PQueues.PQueue.Take` | src/pqueue.h:152-170 | A dequeue. |
| `PQueues.PQueue.Age` | src/pqueue.h:175-187 | An aging step, which turns the ring by index arithmetic. |
| `PQueues.PQueue.IsReady` | src/pqueue.h:113-116 | Whether the current bucket has an entry. |
| `PQueues.PQueue.Peek` | src/pqueue.h:192-209 | The loops over the ring find the `entry`-th entry in the order of service, or nothing one past the last. |
| `Robs.PushAppends` | src/rob.cc:103-108 | A push appends at the index `last_rob` showed and moves nothing. |
| `Robs.PopDrops` | src/rob.cc:113-117 | A pop removes the oldest and renumbers the others without moving them. |
| `Robs.SlotsDiffer` | src/rob.h:129-168 | Different positions have different indices, across the wrap. |
| `Robs.Rob.PushBack` | src/rob.cc:103-108 | In place, a push of the bounded FIFO. |
| `Robs.Rob.PopFront` | src/rob.cc:113-117 | In place, a pop. |
| `Robs.Rob.Reinit` | src/rob.cc:121-131 | Empties the buffer and clears its entries. |
| `Robs.Rob.Front` | src/rob.h:129-132 | The oldest entry. |
| `Robs.Rob.Back` | src/rob.h:120-123 | The youngest entry, found across the wrap. |
| `StoreIndex.RunExact` | src/map.cc:343-518 | In every run the index records for each byte address exactly the youngest in-flight store that begins there, and has an entry only if one does. |
| `StoreIndex.LookupRightIff` | src/map.cc:399-481 | `add_store_deps` returns the youngest recorded overlapping store of the quadword, or none if there is none, if and only if no recorded store overlaps, the single mark is the load's own byte, or the youngest has a non-zero number that no later byte's truncated comparison beats. |
| `StoreIndex.LookupRight` | src/map.cc:399-481 | In particular whenever uop numbers in flight lie between 1 and 2^32 - 1. |
| `StoreIndex.OverlapsIff` | src/map.cc:69 | Accesses of at least a byte overlap if and only if they share one. |
| `StoreIndex.ScanExact` | src/map.cc:432-461 | The byte loop alone ends at the youngest overlapping store under exactly that condition. |
| `StoreIndex.FirstStoreMissed` | src/map.cc:434-458 | A store numbered zero is missed by an overlapping load that starts at another byte. |
| `StoreIndex.DependenceFoundIff` | src/map.cc:399-481 | For uop numbers between 1 and 2^32 - 1 a load is told of the youngest overlapping store in flight, recorded or not, if and only if that store begins in the load's quadword and none younger begins at the same byte. |
| `StoreIndex.NoDependence` | src/map.cc:399-481 | And of none when no store in flight overlaps it. |
| `StoreIndex.SpillMissed` | src/map.cc:410-415 | A store that begins in the previous quadword is missed. |
| `StoreIndex.StoreHash.UpdateStoreHash` | src/map.cc:343-395 | Entering a store keeps the index exact. |
| `StoreIndex.StoreHash.AddStoreDeps` | src/map.cc:399-481 | The loop in place returns what the specification does, and the right store for numbers in that range. |
| `StoreIndex.StoreHash.DeleteStoreHashEntry` | src/map.cc:484-518 | Deleting the oldest store keeps the index exact. |
| `CacheSets.LruResidents` | src/cache.cc:197-417 | After any run with increasing access times below MAX_INT the resident lines are exactly the `assoc` most recently touched distinct ones, valid tags are distinct, and a lookup hits exactly when its line is resident. |
| `CacheSets.RunLru` | src/cache.cc:197-417 | The invariant behind it, against a stack of touches defined without the cache. |
| `CacheSets.VictimIsLruIff` | src/cache.cc:259-297 | The replacement search returns a free or least recently used way if and only if a way is free, some time is below MAX_INT, or way 0 happens to be it. |
| `CacheSets.VictimNotOldest` | src/cache.cc:259-297 | A set in which it takes a way that is not least recently used. |
| `CachePartition.PartitionKept` | src/cache.cc:300-430 | In every partitioned run the counters equal the valid lines of each type, no quota is exceeded, a replacement way is found for either type, and no step evicts a line of the other type. |
| `CachePartition.VictimFound` | src/cache.cc:300-340 | The way found is free below the quota, and at the quota the least recently used of the type. |
| `CachePartition.InsertKeepsPart` | src/cache.cc:376-430 | One insertion keeps counts and quotas and every line of the other type in its way. |
| `CachePartition.CacheSet.AccessCache` | src/cache.cc:197-237 | The lookup loop, with its time update. |
| `CachePartition.CacheSet.FindReplacementLine` | src/cache.cc:259-297 | The search loop of LRU replacement. |
| `CachePartition.CacheSet.FindFromSameType` | src/cache.cc:300-340 | The search loop within one type. |
| `CachePartition.CacheSet.InsertCache` | src/cache.cc:376-417 | Replacement and the new line, with the counters. |
| `CachePartition.CacheSet.InsertInPartition` | src/cache.cc:376-417 | The same under partitioning; the assertion that a way was found holds. |
| `CacheAddress.ShiftIsDivision` | src/cache.cc:172-193 | The shift form of the index equals the division form whenever the number of tiles is a power of two. |
| `CacheAddress.LineFromTile` | src/cache.cc:172-193 | With an interleaving factor of at least the line size, tile, tag and set agree exactly for addresses of one line. |
| `CacheAddress.SetInRange` | src/cache.cc:172-193 | The set is one of the cache's sets, and the tag has the set bits clear. |
| `CacheAddress.OneTile` | src/cache.cc:172-193 | With one tile the set is the line number modulo the number of sets, and tag plus set is the line number. |
| `CacheAddress.NextLineNextSet` | src/cache.cc:172-193 | With an interleaving factor of at least the line size, consecutive lines of a tile go to consecutive sets and wrap around. |
| `CacheAddress.FirstLineSet` | src/cache.cc:172-193 | And the first line of a tile goes to set 0. |
| `CacheAddress.TilesDetermineLineIff` | src/memory.cc:2790-2796 | With two or more tiles, tile, tag and set determine the line if and only if the factor is at least the line size. |
| `CacheAddress.FineTilesAlias` | src/cache.cc:172-193 | With a finer factor, two lines that share all three. |

## Left out

- ExactlyOnce: says "at most once" for prefetches and nothing for instruction fetches, because a flushed
  prefetch has no effect and the instruction-cache wrapper repeats its own; `MemCalls.FetchEffects` says how often.
- ChildrenOnce: is about children without tracked prefetches; with them `CountedOnceIff` and `SetOnceIff` say when
  it holds.
- LastSets: likewise; `SetsCycle` is the general form.
- CorePipeline.Pipeline.UopSchedule: free ports and the answer of `exec` are parameters, so any answer is covered.
- CorePipeline.Pipeline.Advance: the limits of the scheduler and its per-queue counters are a parameter, the number
  of uops after which they stop the loop, so any limit is covered.
- MemRun.RunInv: assumes at most 1024 MSHR entries, without which it fails.
- LruResidents: is about LRU replacement without invalidation; the pseudo-LRU mode is not modelled.
- Request objects, uops and buffer entries are values with an identity; pointers into pools are identities, not
  heap references.
- MemRun.ExactlyOnePlace: takes the network as one set of packets from which any is delivered next, which covers
  every order the lists of `Noc` can give; the router network is not part of this model.
- A reply of a memory controller leaves the model's DRAM place when it is sent; the source marks it one pass
  later, and nothing reads the state in between.
- GPU pooled stores and write acknowledgements of compute capability 2.0: they bypass the MSHR.
- Read-only constant and texture caches and shared memory: they issue no other kind of request.
- Cache contents behind the queue loops: hits, victims and ports are choices of the environment there.
- Register-independent memory dependences of a uop are arbitrary extra sources; the store index is modelled
  apart, in `StoreIndex`.
- The circular scheduler list: any listed entry may be tried at any time.
- Off-path uops, branch recovery, thread creation and termination, and the GPU retirement path.
- Pseudo-LRU, invalidation, dirty bits and data values of a cache.
- Prefetcher heuristics, branch prediction, power events, statistics, debugging output and knobs other than as
  constants.
- External DRAM and network simulators and the coherence stub.
