# Verified model of the network filter driver and the WFP controller

The project models four parts of the repository and proves what they promise.

* **The NDIS lightweight filter** (`src/FilterDriver`). `Datapath` is a transition system of one
  attached module: a step is one critical section under `MS_FILTER.Lock`, one call into NDIS, or one
  unlocked write of `State`; any number of handler activations interleave, `DBG` is a parameter, the
  counters are 32 bits wide. `DatapathInvariants` proves the step invariants, `DatapathTheorems` what
  follows for every run. `Dispositions` proves what becomes of each chain, and `HandlersAlone` that a handler
  with nobody in between makes the calls that the handlers on the heap are proved to make. `ReceiveCounts` splits the receive counter into what is held and what is handed
  back, and says exactly when an NBL is counted twice. `PauseGate` says what the state check does while
  the module is down and exactly when nothing is outstanding then, `UngatedPause` the same for builds
  without the check, and `DatapathLimits` has the runs that show what the driver does not promise. `LockRefinement`
  justifies the atomic sections: a system in which the lock holder loads and stores the counters one
  access at a time has the same runs as `Datapath`. `FilterHandlers` has the handlers on the
  heap, with chains walked by loops. `ListEntries`, `ModuleList` and `ModuleRuns` have the global
  circular list, the ledger of context allocations and the NDIS callbacks on any number of modules;
  `PackedNames` the names behind the struct in its allocation.
* **The string algorithms** (`src/WFPController/Strings`). `WStrings` defines occurrences, tokens and
  joining; `StringAlgorithms` has the loops; `StringLaws` the laws that link them, with the exact
  condition (a border-free delimiter) under which the inverse laws hold.
* **Controller sessions and callouts** (`src/WFPController/WindowsFilteringPlatform`). `WfpModel` gives
  each operation as a function of sessions, pointer counts, registry and slots; `WfpObjects` has the
  classes, updated in place, proved to compute those functions; `WfpInvariants`, `WfpTheorems` and
  `WfpRuns` prove the session and registry properties over every command sequence, platform failures
  included; `WfpRegistry` says which registrations each command leaves.
* **Socket failover** (`src/WFPController/WinSock`). `SocketModel`, `SocketObjects` and `SocketRuns`
  treat `Connect`, `Close` and `Move` in the same way, with a ledger of open handles; `SocketCalls` ties
  every exit of `Connect` to the Winsock call behind it.

## Assumptions about the environment

* NBL chains are acyclic and not empty, and `NumberOfNetBufferLists` is the chain's length modulo 2^32.
* NDIS and the layers above and below complete, return and pass on only NBLs they hold, grouped and
  ordered as they like. Chains indicated as CANNOT_PEND come back when the indication returns, never
  through the return handler.
* NDIS calls Restart and Detach only on modules that it knows to be paused, Pause only on running ones, one
  lifecycle call at a time, and passes the registered driver context to Attach.
* The filtering platform hands out callout ids other than 0, refuses a key that is registered already,
  and drops what a dynamic session registered when the session closes. `FwpmEngineClose0` closes.
* `socket()` never hands out a handle that is open. Handle 0 is a handle; `INVALID_SOCKET` is not.
* `sizeof(MS_FILTER)` is at most 2^32 - 1 - 3 * 65535, the exact bound for which `Size` cannot overflow.

## Where the code and its comments disagree

The model follows the code.

* The comments of `FilterPause` (lines 61-70 of `src/FilterDriver/main.cpp`) say to wait for outstanding
  NBLs to return. The code waits for nothing (72-74): `DatapathLimits.PausedWithOutstandingSend` is a run,
  `PauseGate.NothingOutstandingIff` and `UngatedPause.UngatedSendsIff` the exact conditions.
* Its header (37-39) rules out sends and receives after it has completed. A chain past the state check
  is passed on whatever `State` has become since, because the lock is dropped at 559 and taken again at
  563: `PauseGate.SilentIff` says exactly when nothing is. Without `DBG` there is no check at all.
* `FilterRestart` sets `Status` to success at 452, so the branch at 459-462 is never taken.
* `State` is written without the lock at 74 and 449; the transition system has these as steps of their own.
* `FilterReturnNetBufferLists` hands NBLs back before it discounts them, so `OutstandingRcvs` can count an
  NBL twice: `DatapathLimits.ReceivesCountedTwice` is a run, `ReceiveCounts.ReachableOnceIff` the exact
  condition. Receive conservation is stated accordingly.
* The ASSERT at 633 takes `NumberOfNetBufferLists` to be at least 1. A chain of 2^32 NBLs would make it
  fire: `DatapathLimits.CountAssertIff`.
* `Socket::Close` takes handle 0 for "no socket" and ignores the result of `closesocket`; `Connect`
  overwrites a handle that it already has. `SocketRuns.OpenIffHeldOrLost` says exactly which handles are
  lost, `SocketRuns.ReconnectLoses` and `SocketRuns.CloseLoses` are such runs.
* After a failed `Add` a slot keeps its session pointer. `WFPEngine::Close` does not remove it, and a
  second `Close` returns at once: `WfpTheorems.CloseCompletesIff` says exactly when `Close` leaves nothing
  open, `WfpRuns.FailedAddOutlivesClose` is a run in which it does not.

## Model

| member | source | states |
|---|---|---|
| DatapathTheorems.SendConservation | src/FilterDriver/main.cpp:494-583 | In every interleaving `OutstandingSends` is, modulo 2^32, the number of distinct NBLs counted and not yet discounted; exact below 2^32, never below a pending decrement, 0 when nothing is under way |
| DatapathTheorems.OutstandingSendsBounded | src/FilterDriver/main.cpp:561-573 | The sends counted are pairwise different NBLs of the senders, so no NBL is counted twice |
| ReceiveCounts.ReceiveConservation | src/FilterDriver/main.cpp:673-757 | In every interleaving `OutstandingRcvs` is, modulo 2^32, the NBLs held above or on their way, each once, plus those handed back whose decrement is pending; exact while pool and handed-back NBLs are together below 2^32, and then never below what is held above nor below a pending decrement |
| ReceiveCounts.ReceiveSplit | src/FilterDriver/main.cpp:673-757 | What is held is a part of the receive pool, so the count exceeds the pool by no more than what is handed back |
| ReceiveCounts.CountedOnceIff | src/FilterDriver/main.cpp:746-753 | No NBL is counted twice if and only if the chains handed back and not yet discounted have nothing in common with what is held or with each other |
| ReceiveCounts.StepOnceIff | src/FilterDriver/main.cpp:673-753 | The one step that makes an NBL counted twice is the section at 676 on a chain with an NBL whose decrement at 753 is pending |
| ReceiveCounts.ReachableOnceIff | src/FilterDriver/main.cpp:673-753 | A run never counts an NBL twice, in any of its states, if and only if it has no such step |
| ReceiveCounts.WaitingCountsOnce | src/FilterDriver/main.cpp:673-757 | If no Receive carries an NBL that a return handler has yet to discount, no NBL is ever counted twice and the counter is exact for pools below 2^32 |
| DatapathTheorems.SingleOwnerAndDisposition | src/FilterDriver/main.cpp:534-699 | At every step each NBL has exactly one owner, and the calls that carried it form one connected path: forwarded or refused, indicated or given back, never both, never twice |
| DatapathTheorems.RefusedSendsAreMarked | src/FilterDriver/main.cpp:547-555 | A chain refused by the state check goes back up with every NBL marked NDIS_STATUS_PAUSED, in every interleaving |
| Dispositions.AdmittedSendsAreUnmarked | src/FilterDriver/main.cpp:539-583 | No other send is ever marked: in every interleaving no NBL below, or with a send or completion handler that did not refuse it, has that status, and none had when it was handed down or completed |
| Dispositions.ReceivedChainsGoAsReceived | src/FilterDriver/main.cpp:611-699 | In every interleaving a chain that is given back or indicated to keep was last received with leave to pend, and one that is left back or lent without |
| HandlersAlone.SendAlone | src/FilterDriver/main.cpp:530-583 | Run alone, a send is counted and handed down unmarked, or, in a DBG build that is not running, marked and completed with the fields as they were; these two calls and no others |
| HandlersAlone.CompleteAlone | src/FilterDriver/main.cpp:494-513 | Run alone, a completion is discounted and passed up |
| HandlersAlone.ReceiveAlone | src/FilterDriver/main.cpp:607-701 | Run alone, a chain that may pend is counted and indicated, one that may not is lent and the counter restored; a DBG build that is not running gives back the one and leaves the other |
| HandlersAlone.ReturnAlone | src/FilterDriver/main.cpp:733-757 | Run alone, a return is handed back and discounted |
| DatapathTheorems.LifecycleSafety | src/FilterDriver/main.cpp:55-74 | No state assertion fires, nor the one on the count of a received chain in pools below 2^32; the module is Pausing only inside FilterPause, otherwise paused or running as NDIS believes, and tracking stays on |
| DatapathInvariants.InitialInv | src/FilterDriver/main.cpp:197-219 | The state that FilterAttach leaves satisfies the invariant |
| DatapathInvariants.StepKeepsInv | src/FilterDriver/main.cpp:494-757 | Every step of every handler and callback keeps the invariant |
| DatapathInvariants.StepMoves | src/FilterDriver/main.cpp:513-583 | A step moves exactly the NBLs of its call from one owner to another and no others |
| DatapathInvariants.CountersKept | src/FilterDriver/main.cpp:494-508 | Every step keeps both counters equal, modulo 2^32, to what they stand for |
| DatapathInvariants.LocationKept | src/FilterDriver/main.cpp:583-699 | Every step keeps each NBL with the one owner that its logged calls determine |
| DatapathInvariants.MarksKept | src/FilterDriver/main.cpp:547-552 | Marks of a refused chain survive everything that others do until it is completed |
| DatapathInvariants.LifecycleKept | src/FilterDriver/main.cpp:341-449 | Every step keeps `State` in agreement with NDIS's view |
| PauseGate.GateConservation | src/FilterDriver/main.cpp:539-583 | While a DBG module is down, what is passed on plus what is still past the check is what was past the check at the start: nothing that checks later is counted or forwarded |
| PauseGate.SilentIff | src/FilterDriver/main.cpp:57-74 | A down period is silent, however it goes on, exactly if no activation stands past the check when it begins |
| PauseGate.PassOn | src/FilterDriver/main.cpp:559-583 | In every state and build an activation past the check can be run on, by its own steps, until it passes its chain on |
| PauseGate.NothingOutstandingIff | src/FilterDriver/main.cpp:57-74 | Of a DBG module that is down: no send (or no receive) is outstanding at any time, however the period goes on, if and only if none was when it began and no activation was about to count one |
| PauseGate.CounterStaysZeroIff | src/FilterDriver/main.cpp:57-74 | The same of the field: `OutstandingSends` reads 0 throughout if and only if it does at the start and no send is admitted then |
| UngatedPause.UngatedSendsIff | src/FilterDriver/main.cpp:561-583 | Without DBG no send is ever outstanding in a period if and only if there are no NBLs to send at all |
| UngatedPause.UngatedReceivesIff | src/FilterDriver/main.cpp:673-757 | Likewise for receives, given that none is handed back and not yet discounted |
| DatapathLimits.PausedWithOutstandingSend | src/FilterDriver/main.cpp:57-74 | From any running state there is a legal run to Paused, as NDIS and the module see it, with a given chain counted and held by the lower layer |
| DatapathLimits.AdmittedSendPasses | src/FilterDriver/main.cpp:559-583 | A send past the check is counted and handed down whatever the state is by then |
| DatapathLimits.UngatedSendPasses | src/FilterDriver/main.cpp:534-583 | Without DBG a send is counted and handed down in every lifecycle state |
| DatapathLimits.ReceivesCountedTwice | src/FilterDriver/main.cpp:746-757 | From any state that lets receives in, with or without DBG, a legal run counts every NBL of a given chain twice, because they are handed back before they are discounted |
| DatapathLimits.StateAssertIff | src/FilterDriver/main.cpp:55 | In any state a call of FilterPause or FilterRestart fires its entry assertion exactly if `State` is not what NDIS takes it to be |
| DatapathLimits.CountAssertIff | src/FilterDriver/main.cpp:633 | The assertion on `NumberOfNetBufferLists` holds in all runs if and only if the receive pool has fewer than 2^32 NBLs |
| LockRefinement.RoundsAreSection | src/FilterDriver/main.cpp:563-572 | All load-store rounds of a section, 32-bit wrap-around included, amount to the section's one update |
| LockRefinement.StepSimulates | src/FilterDriver/NfdCore.hpp:29-51 | Every memory access under the lock, and every unlocked step beside it, leaves the abstract state alone or is one step of the transition system |
| LockRefinement.RunSimulates | src/FilterDriver/NfdCore.hpp:29-51 | Every run at the grain of memory accesses is a run at the grain of critical sections |
| LockRefinement.FineCountersConserved | src/FilterDriver/main.cpp:504-507 | Whenever the lock is free in a run of single accesses, both conservation laws and the whole invariant hold |
| LockRefinement.RunRealised | src/FilterDriver/NfdCore.hpp:29-51 | Every run at the grain of critical sections is a run at the grain of memory accesses |
| FilterHandlers.MsFilter.CountSends | src/FilterDriver/main.cpp:563-572 | The counting loop over a chain on the heap adds its length to `OutstandingSends`, modulo 2^32 |
| FilterHandlers.MarkPaused | src/FilterDriver/main.cpp:547-552 | The marking loop gives every NBL of the chain status paused |
| FilterHandlers.CountChain | src/FilterDriver/main.cpp:496-502 | The counting loop returns the chain's length modulo 2^32 |
| FilterHandlers.MsFilter.FilterSendNetBufferLists | src/FilterDriver/main.cpp:530-583 | Either all NBLs are marked, the chain is completed once and no field changes, or it is counted and handed down once |
| FilterHandlers.MsFilter.FilterSendNetBufferListsComplete | src/FilterDriver/main.cpp:494-513 | The chain's length is discounted and the chain handed up once |
| FilterHandlers.MsFilter.FilterReceiveNetBufferLists | src/FilterDriver/main.cpp:607-701 | Given back, left back or indicated once; a chain that cannot pend leaves all fields as they were |
| FilterHandlers.MsFilter.FilterReturnNetBufferLists | src/FilterDriver/main.cpp:733-757 | The chain is handed back once and its length discounted |
| FilterHandlers.LoanRestores | src/FilterDriver/main.cpp:673-699 | Counting a CANNOT_PEND chain and discounting it restores the counter for every value and length |
| ListEntries.InsertHeadList | src/FilterDriver/main.cpp:222 | On forward and back links, insertion keeps a circular list and puts the entry first |
| ListEntries.RemoveEntryList | src/FilterDriver/main.cpp:292 | Removal from any position keeps a circular list of the other entries in order |
| ListEntries.IsListEmpty | src/FilterDriver/main.cpp:809 | The test of the head's link says whether the circular list has no entry |
| ModuleList.FilterDriver.constructor | src/FilterDriver/main.cpp:1172 | The list starts circular and empty, with an empty allocation ledger |
| ModuleList.FilterDriver.FilterAttach | src/FilterDriver/main.cpp:128-235 | Succeeds if and only if driver context, medium, memory and attributes are all in order, with the status of the first that is not otherwise; on success the new context is first in the list, paused, counters 0, name buffer null; on failure the list is as it was and a context that was allocated is freed once |
| ModuleList.FilterDriver.FilterDetach | src/FilterDriver/main.cpp:275-298 | The context leaves the list from any position and is freed once, and the list and ledger stay well formed |
| ModuleList.FilterDriver.FilterPause | src/FilterDriver/main.cpp:55-77 | Succeeds, leaves all fields but the state, and keeps list and ledger |
| ModuleList.FilterDriver.FilterRestart | src/FilterDriver/main.cpp:341-465 | Succeeds and sets the module running whether or not the configuration could be opened |
| ModuleRuns.ViewIsWhatIsAttached | src/FilterDriver/main.cpp:221-293 | After any legal callbacks the listed adapters are exactly those attached and not detached since, each once, most recent first |
| ModuleRuns.ListedWasInOrder | src/FilterDriver/main.cpp:131-219 | Every listed adapter was attached with a supported medium, memory and attributes |
| ModuleRuns.Perform | src/FilterDriver/main.cpp:219-298 | Each callback takes the heap list from one such view to the next and fires no assertion |
| ModuleRuns.RunCallbacks | src/FilterDriver/main.cpp:159-298 | In every legal run over any number of modules: the live contexts are exactly the listed ones, none is freed twice, no assertion fires, and no name buffer is ever freed because all are null |
| ModuleRuns.RunToUnload | src/FilterDriver/main.cpp:807-811 | Once all adapters are detached, DriverUnload finds the list empty and no context is live |
| PackedNames.SizeFitsIff | src/FilterDriver/main.cpp:154-157 | `Size` is exact for all three 16-bit lengths if and only if the struct's size is within the bound |
| PackedNames.Context.constructor | src/FilterDriver/main.cpp:154-189 | The allocation is as long as the struct and the three names; the names lie one behind the other to its end; after all copies each descriptor reads back its source and the struct's bytes are as they were zeroed |
| StringAlgorithms.TokeniseString | src/WFPController/Strings/wfpcontroller.strings.cpp:179-209 | The suffix-searching loop terminates with the tokens of the input |
| StringAlgorithms.Replace | src/WFPController/Strings/wfpcontroller.strings.cpp:212-230 | The index-based loop terminates with the tokens by `from` joined with `to`: it refines the suffix-based one |
| StringAlgorithms.Compact | src/WFPController/Strings/wfpcontroller.strings.cpp:234 | In place, the two-index compaction leaves at the front exactly the other characters in order |
| StringAlgorithms.Erase | src/WFPController/Strings/wfpcontroller.strings.cpp:232-236 | The result is the characters other than the erased one, in order |
| StringLaws.TokensIff | src/WFPController/Strings/wfpcontroller.strings.cpp:179-209 | The tokens are the only way of writing the input as pieces joined by the delimiter that cuts at each first occurrence |
| StringLaws.JoinTokens | src/WFPController/Strings/wfpcontroller.strings.cpp:192-204 | Joining the tokens with the delimiter gives back the input |
| StringLaws.TokensAreFree | src/WFPController/Strings/wfpcontroller.strings.cpp:192-204 | No token contains the delimiter |
| StringLaws.JoinRoundTripsIff | src/WFPController/Strings/wfpcontroller.strings.cpp:179-209 | Tokenising the join gives back every non-empty list of delimiter-free tokens if and only if the delimiter has no border |
| StringLaws.ReplaceUndo | src/WFPController/Strings/wfpcontroller.strings.cpp:212-230 | Replacing `a` by a border-free `b` that does not occur in the text, and back, gives back the text |
| StringLaws.ReplaceUndoIff | src/WFPController/Strings/wfpcontroller.strings.cpp:212-230 | This holds for every text and `a` if and only if `b` has no border |
| StringLaws.GreedyIsOptimal | src/WFPController/Strings/wfpcontroller.strings.cpp:192-206 | No set of pairwise non-overlapping occurrences is larger than the number of cuts |
| StringLaws.CutsArePacking | src/WFPController/Strings/wfpcontroller.strings.cpp:192-206 | The cuts are such a set, one fewer than the tokens |
| StringLaws.ReplaceLength | src/WFPController/Strings/wfpcontroller.strings.cpp:220-227 | The result's length is that of the source plus, per occurrence of a largest packing, the difference of the two lengths |
| StringLaws.EraseIsReplace | src/WFPController/Strings/wfpcontroller.strings.cpp:232-236 | Erasing a character is replacing it by nothing, that is, concatenating the tokens it delimits |
| StringLaws.KeepCounts | src/WFPController/Strings/wfpcontroller.strings.cpp:234 | Every other character is kept as often as it occurs |
| StringLaws.AdvancesIff | src/WFPController/Strings/wfpcontroller.strings.cpp:220-225 | The loops advance at every round exactly if the string searched for is not empty |
| WfpObjects.Platform.Drop | src/WFPController/WindowsFilteringPlatform/wfpcontroller.wfp.cpp:188-195 | A shared pointer goes; the last one closes the session, with what it registered |
| WfpObjects.Callout.Move | src/WFPController/WindowsFilteringPlatform/wfpcontroller.wfp.callout.cpp:59-74 | Move assignment removes the old callout, drops its pointer and takes over the other's, which keeps neither pointer nor id |
| WfpObjects.Callout.Add | src/WFPController/WindowsFilteringPlatform/wfpcontroller.wfp.callout.cpp:76-100 | Registers the key through the held session, or fails without effect |
| WfpObjects.Callout.Remove | src/WFPController/WindowsFilteringPlatform/wfpcontroller.wfp.callout.cpp:102-112 | Does nothing without id or pointer; else forgets the id and drops the pointer even if the deletion fails |
| WfpObjects.WFPEngine.OpenFilterEngine | src/WFPController/WindowsFilteringPlatform/wfpcontroller.wfp.cpp:172-196 | Replaces the engine's pointer by one to a new session, or fails without effect |
| WfpObjects.WFPEngine.AddCallouts | src/WFPController/WindowsFilteringPlatform/wfpcontroller.wfp.cpp:160-170 | Fills the four slots in order up to the first failure |
| WfpRegistry.AddCalloutsStops | src/WFPController/WindowsFilteringPlatform/wfpcontroller.wfp.cpp:160-170 | If AddCallouts fails with a session, it stopped at one slot: those before it are added through the session, that one has a pointer but no id, and those after it are untouched, their registrations too unless their session was closed; without a session it changes nothing |
| WfpObjects.WFPEngine.AddOutboundTCPPacketCallout | src/WFPController/WindowsFilteringPlatform/wfpcontroller.wfp.cpp:103-114 | A temporary callout is moved into the TCP slot and added there |
| WfpObjects.WFPEngine.Close | src/WFPController/WindowsFilteringPlatform/wfpcontroller.wfp.cpp:70-80 | Removes the four callouts in the source's order, then drops the engine's pointer |
| WfpObjects.WFPEngine.Destroy | src/WFPController/WindowsFilteringPlatform/wfpcontroller.wfp.cpp:21-24 | Closes, then destroys the members in reverse order of declaration |
| WfpObjects.PlayOn | src/WFPController/WindowsFilteringPlatform/wfpcontroller.wfp.cpp:70-196 | Any command sequence on the objects ends in the state that the run theorems are about |
| WfpObjects.PlayAndDestroy | src/WFPController/WindowsFilteringPlatform/wfpcontroller.wfp.cpp:21-24 | Destroying the engine object after any commands leaves every session closed once and nothing registered |
| WfpRuns.SessionLifetime | src/WFPController/WindowsFilteringPlatform/wfpcontroller.wfp.cpp:188-195 | After any commands a session's count is the number of pointers to it, and it was closed once if it was opened and none is left, else never |
| WfpRuns.PlayKeeps | src/WFPController/WindowsFilteringPlatform/wfpcontroller.wfp.cpp:70-196 | Every command sequence, failed commands included, keeps counts, registry and slots in agreement |
| WfpTheorems.ExecKeeps | src/WFPController/WindowsFilteringPlatform/wfpcontroller.wfp.cpp:70-196 | Each command keeps that invariant; in particular an added callout holds the session through which its key is registered |
| WfpInvariants.AddSlotKeeps | src/WFPController/WindowsFilteringPlatform/wfpcontroller.wfp.cpp:103-153 | An adder keeps it, touches only its slot, and leaves it added, or with a pointer but no id if the platform refuses |
| WfpRuns.AddSlotDoneIff | src/WFPController/WindowsFilteringPlatform/wfpcontroller.wfp.callout.cpp:59-100 | An adder succeeds if and only if the platform is willing and clearing the slot frees its key, by deletion or as the last pointer to the old session |
| WfpRuns.ReopenSucceedsIff | src/WFPController/WindowsFilteringPlatform/wfpcontroller.wfp.cpp:160-196 | Re-opening and then adding all callouts succeeds if and only if the platform accepts each callout and each key still registered is deleted or belongs to a session that no later slot keeps alive |
| WfpRuns.ReopenMovesAll | src/WFPController/WindowsFilteringPlatform/wfpcontroller.wfp.cpp:160-196 | It then leaves all four keys registered through the new session and every other session closed |
| WfpTheorems.CloseLeavesOpen | src/WFPController/WindowsFilteringPlatform/wfpcontroller.wfp.cpp:70-80 | After Close exactly those sessions stay open that a callout whose Add failed points at, or any callout if the engine had no session; whichever deletions fail |
| WfpTheorems.CloseCompletesIff | src/WFPController/WindowsFilteringPlatform/wfpcontroller.wfp.cpp:70-80 | In every reachable state Close leaves nothing open or registered if and only if no slot is left over from a failed Add, or, when the engine has no session, no slot has one |
| WfpRegistry.CloseRegistryIff | src/WFPController/WindowsFilteringPlatform/wfpcontroller.wfp.cpp:70-80 | A key stays registered after Close if and only if it was, no deletion of it succeeds, and its session is left held; without a session Close changes nothing |
| WfpRuns.FailedAddOutlivesClose | src/WFPController/WindowsFilteringPlatform/wfpcontroller.wfp.cpp:70-80 | Open, one refused Add, Close, and Close again leave the session open |
| WfpRuns.CloseAfterCleanRun | src/WFPController/WindowsFilteringPlatform/wfpcontroller.wfp.callout.cpp:102-112 | After a run without a failed Add, Close leaves nothing registered and every session closed once, even if deletions fail |
| WfpRuns.DestroyAfterAnyRun | src/WFPController/WindowsFilteringPlatform/wfpcontroller.wfp.cpp:21-24 | Destroying the engine after any run closes every session once |
| SocketCalls.FateIs | src/WFPController/WinSock/wfpcontroller.winsock.socket.cpp:152-186 | What becomes of an address is the result of the last Winsock call made for it: each outcome stands for that call, made and answered so |
| SocketCalls.ExitIs | src/WFPController/WinSock/wfpcontroller.winsock.socket.cpp:149-198 | Connect returns normally exactly if its last call was a successful connect of the handle it holds, and each exception stands for the call that failed; addresses are tried in order, only a handle whose connect has just failed is closed, and a TTL asked for is set on the handle, by the option of its family, right before connecting |
| SocketObjects.Socket.TryAddress | src/WFPController/WinSock/wfpcontroller.winsock.socket.cpp:152-186 | One round of the loop: the calls made, what becomes of the address, and what is open and closed after it |
| SocketObjects.Socket.Connect | src/WFPController/WinSock/wfpcontroller.winsock.socket.cpp:126-199 | The failover loop, for every address list and every outcome of its calls: the calls made, exit, handle, family, ledger; success exactly if the last call was a successful connect; a connected handle has the TTL asked for |
| SocketObjects.Socket.SetSocketTTL | src/WFPController/WinSock/wfpcontroller.winsock.socket.cpp:64-119 | The TTL is set exactly if there is a handle other than 0, the family is known and both option calls succeed; each error stands for the guard or call that failed, and no call is made if a guard did |
| SocketObjects.Socket.Close | src/WFPController/WinSock/wfpcontroller.winsock.socket.cpp:201-210 | Forgets any handle but 0, whatever closesocket answers |
| SocketObjects.Socket.Move | src/WFPController/WinSock/wfpcontroller.winsock.socket.cpp:51-62 | Closes, then takes over all fields; the other is left without host and handle; moved into itself an object ends without a handle |
| SocketObjects.PlayOn | src/WFPController/WinSock/wfpcontroller.winsock.socket.cpp:51-210 | Any legal command sequence on the objects ends in the state that the run theorems are about |
| SocketModel.Stop | src/WFPController/WinSock/wfpcontroller.winsock.socket.cpp:150-187 | All addresses before the one where the search stops refuse, and that one does not |
| SocketModel.ConnectLedger | src/WFPController/WinSock/wfpcontroller.winsock.socket.cpp:149-198 | At every exit only the object's handle may have been left open; normal return if and only if some address connects after refusals only, with its handle held and the earlier ones closed; nothing is left open if all refuse |
| SocketRuns.ExecKeeps | src/WFPController/WinSock/wfpcontroller.winsock.socket.cpp:51-210 | Every operation keeps single ownership of open handles, and loses a handle if and only if its condition holds |
| SocketRuns.OpenIffHeldOrLost | src/WFPController/WinSock/wfpcontroller.winsock.socket.cpp:51-210 | In every run over any number of sockets, TTLs set in between, a handle is open exactly if one object has it or an operation lost it, never both |
| SocketRuns.AllGone | src/WFPController/WinSock/wfpcontroller.winsock.socket.cpp:21-24 | Once no object has a handle, none is open if and only if no operation lost one |
| SocketRuns.ReconnectLoses | src/WFPController/WinSock/wfpcontroller.winsock.socket.cpp:149-157 | Connecting a connected object again loses its handle |
| SocketRuns.CloseLoses | src/WFPController/WinSock/wfpcontroller.winsock.socket.cpp:201-210 | A refused closesocket loses the handle; so does destroying an object that has handle 0 |
| SocketRuns.TTLFailureHolds | src/WFPController/WinSock/wfpcontroller.winsock.socket.cpp:164-165 | After a TTL is set, an address that cannot take it leaves Connect by exception with its handle open and held |

## Left out

- FilterHandlers.MsFilter.FilterSendNetBufferLists: runs without interference on the heap; interleavings are those of `Datapath`. The same goes for the other handlers of that class.
- ModuleList.FilterDriver.FilterPause: the state is written in one go on the heap; the steps between are those of `Datapath`.
- PackedNames.Context.constructor: the struct is an area of zeroed bytes whose fields are kept beside it.
- WfpObjects.Callout.Add: display name, provider, layer and flags do not take part.
- SocketObjects.Socket.Move: a string moved into itself is taken to stay as it is, as the standard leaves it unspecified.
- Attach and detach are not steps of the datapath system, which begins with an attached module; datapath calls of different modules share no state.
- NBL statuses other than NDIS_STATUS_PAUSED: completion status set by the lower layer is not modelled, and submitted NBLs come without a status.
- Weak memory: the unlocked reads and writes of `State` are single steps in one total order.
- `FilterSetModuleOptions` behind its constant FALSE, PnP notification, IRP dispatch, IOCTLs, device registration, the walk over restart attributes, OID requests, status indications.
- `TrackSends` and `TrackReceives` other than TRUE occur in the sections but not in runs, as nothing changes them after Attach.
- The state lock and the list lock are not tied to IRQLs.
- Exceptions are modelled as outcomes; `std::wstring` allocation failure is not modelled.
- `ConvertString`, `DoCaseInsensitiveMatch` and the older conversions of the string module.
- `RegisterProvider`, `AddContext`, `AddSublayer` and `AddFilters`: one platform call each, without ownership.
- The move constructors of `Callout` and `Socket`, which work on uninitialised members; `Send` and `Receive` of `Socket`.
- The WDM, KMDF and callout sample drivers, `IntList`, error formatting and the console.
