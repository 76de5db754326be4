# GCOS kernel: a verified model

GCOS is a userspace operating system for LLM agents. N workers take agents from a
shared ready queue, take a unit of a global call budget, run one step of the agent
(at most one LLM call), hand the unit back if no call was made, and requeue or drop
the agent, while spawns, kills, top-ups and shutdown interleave freely. Around that
protocol sit schedulers, a context pager with three eviction tiers, a process-backed
pool, a process tree, a shared-memory byte ring, a page store and a rate limiter.
This project models those mechanisms and proves what they promise, over every
reachable state, every run or every input.

`dafny verify dfyconfig.toml` checks everything.

## How it is organised

| files | topic |
|---|---|
| `Basics`, `Agents`, `Quotas`, `ReadyQueues`, `MessageBuses` | shared notions; control block, shared budget, ready queue and mailboxes as classes; priority with aging |
| `Steps`, `StepRunner` | one agent step as a function with a proved contract; the three step runners and the drive loop as methods equal to it |
| `WorkerLoop`, `AgentTraces` | one worker's dispatch (input, quantum loop, blocked wait, refund, piping, requeue) on the real objects, and a worker draining the queue |
| `Dispatch`, `DispatchInvariant`, `DispatchProofs`, `DispatchTheorems`, `DispatchMail`, `DispatchEffects` | the thread pool as a state machine, its inductive invariant, and the theorems over all runs |
| `StepRefinement`, `PoolSteps` | the machine can do whatever one call of the step runner does, and every step it takes, in any interleaving, meets the step contract |
| `Schedules`, `RealProcesses` | call traces of FCFS and round robin; the index-rotating scheduler of real children |
| `Pages`, `Pager`, `PolicyRuns`, `PagerLoop`, `SwapSpace` | the context pager, its policies, its loops on the mutable page list with the quota they charge, and swap files |
| `ProcessPool`, `ProcessKills`, `ChildSupervisor` | admission control and kill safety of the process-backed pool |
| `ProcessTree`, `Ancestry`, `Kernels`, `KillCascade` | walking down and up, the kernel operations and their histories, and the kill cascade on the running pool |
| `ShmRing`, `PageStore`, `TokenBuckets` | byte ring, mmap page store, token bucket |

The dispatch machine treats each lock-protected section, each `transition` and each
read of an agent's status as one step. `spawn` is three steps (register, announce
WAITING, enqueue) with the agent in a `spawning` set meanwhile. The scheduler may pick
any queue position, so the safety results hold for FCFS, RR and Priority alike.
Replies of the model, raised exceptions, kills during a call, clock readings and what
a child process does are parameters or labels, quantified over.

## Where the code differs from its documentation

- `default_policies` is described as a three-tier stack. With its parameters the
  summarise and swap tiers can never fire: `Pager.LaterTiersAreDead` and
  `Pager.DefaultStackIsLru` prove that the stack is LRU alone.
- `is_drained()` is called the real idle signal. It is, while the pool runs. The stop
  flag, set between a pop and the first step, makes a worker drop an unfinished agent:
  `DispatchTheorems.LeftBehindExactlyAfterShutdown` has the exact condition.
- The process pool drops an agent whose child used all of its 64 steps on tools:
  `ProcessPool.LeftBehindExactlyWhen` has the exact condition.
- `block_count` is said to exceed the number of children under RR. It does exactly when
  some child needs two slices while a later one needs any:
  `RealProcesses.PreemptionShowsExactlyWhen`.
- RR is said to cure the convoy effect of FCFS, which is said to run to completion. FCFS
  itself yields after 10000 steps of a dispatch, so a larger quantum can answer later:
  `Schedules.RoundRobinAnswersNoLater` is an if-and-only-if.
- `spawn` accepts any parent PID. `descendants_of`, and so `kill`, does not end exactly for
  an agent that named itself (`ProcessTree.DescendantsWalkEndsExactlyWhen`). A spawn breaks
  `ancestors_of` exactly when the chain of parents it names leads to the PID it is about to
  get (`Ancestry.SpawnKeepsGrounded`); naming a future PID can do that
  (`Kernels.NamingEachOtherLoops`) and need not (`Kernels.NamingAFuturePidMayEnd`).
- `swap_in` is called lossless. One restore is; the files stay, so a second one duplicates
  (`SwapSpace.SecondRestoreDuplicates`). A swap-out loses pages exactly when two file
  stamps collide (`SwapSpace.SwapOutConserves`). The swap floor gates entry only: a
  swap-out goes below it exactly when a positive floor is exceeded by fewer pages than a
  batch takes (`Pager.SwapGoesBelowFloorExactlyWhen`); with the default batch and floor of 2,
  three unpinned pages leave one (`Pager.DefaultSwapLeavesOneOfThree`).
- A bucket request larger than the capacity waits for ever when no timeout is given:
  `TokenBuckets.OversizedRequestsNeverSucceed`.
- `finished_at` is set even for a process-pool agent that gave up unfinished; exactly then
  the control block is inconsistent (`ChildSupervisor.ApplyResult`).

## Model

| member | source | states |
|---|---|---|
| `Agents.ControlBlock.Transition` | gcos/kernel/pcb.py:166-192 | terminal statuses absorb every request; both timestamps are written at most once; the warning is raised exactly on a move outside the documented graph; finished exactly when terminal |
| `Agents.ControlBlock.constructor` | gcos/kernel/pcb.py:119-164 | a new agent is NEW with its whole quota, no call made and no timestamp |
| `Agents.ControlBlock.Fork` | gcos/kernel/process_pool.py:248-250 | the child starts from an equal copy of the parent's block |
| `Agents.LegalMoves` | gcos/kernel/pcb.py:44-65 | the documented graph: no way out of a finished status, none back to NEW, and a new agent cannot block, fail or finish |
| `Agents.TerminalMeansNoWayOut` | gcos/kernel/pcb.py:166-192 | the statuses that absorb every request are exactly those without a way out in the documented graph |
| `Quotas.Grant` | gcos/kernel/quota.py:32-41 | a partial grant never exceeds the request or what is left, and is one of request, rest, nothing |
| `Quotas.RefundIsExact` | gcos/kernel/quota.py:54-57 | the cap at the total loses nothing exactly when no more is handed back than is in use |
| `Quotas.Quota.Acquire` | gcos/kernel/quota.py:24-30 | takes n or nothing, and succeeds exactly when n is there |
| `Quotas.Quota.AcquireUpTo` | gcos/kernel/quota.py:32-41 | takes exactly the partial grant |
| `Quotas.Quota.GiveBack` | gcos/kernel/quota.py:54-57 | refunds, capped at the total |
| `Quotas.Quota.Raise` | gcos/kernel/quota.py:59-64 | raises total and remaining together |
| `ReadyQueues.ReadyQueue.Put` | gcos/kernel/ready_queue.py:41-53 | refuses exactly finished agents; otherwise the agent is READY and last |
| `ReadyQueues.ReadyQueue.PopLeft` | gcos/kernel/ready_queue.py:57-64 | removes the oldest entry and counts it in flight in the same section |
| `ReadyQueues.ReadyQueue.PopBest` | gcos/kernel/ready_queue.py:66-80 | hands out the first maximum of the keys, removes exactly that entry, and never passes over an agent that dominates the pick or whose waiting outweighs its priority |
| `ReadyQueues.ReadyQueue.Pop` | gcos/kernel/ready_queue.py:82-95 | withdraws the first occurrence, leaves in-flight alone, wakes drain waiters exactly when drained |
| `ReadyQueues.ReadyQueue.TaskDone` | gcos/kernel/ready_queue.py:97-103 | lowers in-flight, never below 0; wakes drain waiters exactly when drained |
| `ReadyQueues.FindBest` | gcos/kernel/ready_queue.py:66-80 | the scan returns the first position whose key no other exceeds |
| `ReadyQueues.BestIsUnique` | gcos/kernel/ready_queue.py:66-80 | the pick is determined by queue and time |
| `ReadyQueues.DominatesMeansBetter` | gcos/kernel/scheduler.py:97-106 | at least the priority and strictly older means a strictly better key, for every rate, cap and pick time |
| `ReadyQueues.BelowTheCapWaitingCounts` | gcos/kernel/scheduler.py:97-106 | below the cap one agent is picked over another if and only if its extra waiting time times the rate exceeds what it lacks in priority, the older one on a tie |
| `ReadyQueues.WaitingLongEnoughWins` | gcos/kernel/scheduler.py:97-106 | an agent that has waited long enough overtakes a younger one of higher base priority |
| `ReadyQueues.AtTheCapRankDecides` | gcos/kernel/scheduler.py:97-106 | between two agents at the cap, base priority and then age decide |
| `ReadyQueues.OnlySuperiorsBeatTheAged` | gcos/kernel/scheduler.py:97-106 | a fully aged agent is beaten only by higher base priority, or equal priority and greater age |
| `ReadyQueues.WithoutAgingRankDecides` | gcos/kernel/scheduler.py:97-106 | with aging off the order is strict priority, oldest first |
| `ReadyQueues.NeverPassedOver` | gcos/kernel/scheduler.py:97-106 | over every history of arrivals, picks and kills no agent is handed out while one that dominates it waits |
| `ReadyQueues.AgedAgentsYieldOnlyToSuperiors` | gcos/kernel/scheduler.py:97-106 | over every history, while a fully aged agent waits nobody of lower rank is handed out |
| `Steps.EveryStepMeetsTheContract` | gcos/executor.py:80-156 | every step, whatever it meets: at most one call, paid from the agent's quota; finished agents untouched; "stop" only when terminal; "keep going" always with a call |
| `Steps.StepThatMayNotBegin` | gcos/agent_loop.py:104-115 | a finished agent is left alone; an exhausted budget or a closed gate ends in ERROR without a call |
| `Steps.StepWhoseContextRaises` | gcos/executor.py:114-127 | when the context cannot be assembled a plain agent ends in TIMEOUT or ERROR, any other step crashes; nothing is charged |
| `Steps.StepWhoseCallRaises` | gcos/agent_loop.py:125-138 | a raising call ends in ZOMBIE if the agent was killed meanwhile, else in TIMEOUT or ERROR as raised; nothing is charged |
| `Steps.StepWhoseCallReturns` | gcos/agent_loop.py:140-174 | a returned call costs exactly one unit of the agent; which status, step count and verdict each reply and each kind of agent leads to |
| `Steps.DriveStaysWithinQuota` | gcos/executor.py:159-168 | driving an agent for any number of steps makes at most its quota of calls, and at most one per step |
| `Steps.DriveGivesUpExactlyWhen` | gcos/executor.py:159-168 | a bounded drive ends with an unfinished agent if and only if every step was a tool step within both budgets |
| `StepRunner.RunReactStep` | gcos/agent_loop.py:102-174 | the multi-step path does to the block exactly what the step function says |
| `StepRunner.RunPlainStep` | gcos/executor.py:98-156 | the plain path does to the block exactly what the step function says |
| `StepRunner.RunCoderStep` | gcos/coder.py:83-187 | the coder path as a single-shot step with one counted call |
| `StepRunner.RunStepOn` | gcos/executor.py:80-95 | which path an agent takes |
| `StepRunner.DriveAgent` | gcos/executor.py:159-168 | the loop equals the drive function; an unfinished result means tools all the way |
| `WorkerLoop.Step` | gcos/kernel/worker_pool.py:267-276 | a step that raises leaves ERROR unless already finished, and does not continue |
| `WorkerLoop.Meanwhile` | gcos/kernel/quota.py:43-64 | refunds, top-ups and competing takers while a worker waits change the budget as their functions say |
| `WorkerLoop.TakeUnit` | gcos/kernel/worker_pool.py:247-262 | a unit is held exactly on success; after a wait it is got exactly when one is there and the pool was not stopped; the stop race hands it back; a dry budget blocks the agent |
| `WorkerLoop.RunOneStep` | gcos/kernel/worker_pool.py:241-279 | block, budget and outcome are those of one step with its wait; the budget in use grows by exactly the calls made; without a unit the agent is requeued unless finished |
| `WorkerLoop.QuantumLoop` | gcos/kernel/worker_pool.py:178-190 | the loop with its waits leaves agent, budget and verdict as the course of its turns says, and queues the agent only when it got no unit |
| `WorkerLoop.CourseEndsOnlyWhen` | gcos/kernel/worker_pool.py:178-190 | an unfinished agent leaves the loop only at the end of the quantum, at the stop flag or after a wait in vain, and until then every step was a call |
| `WorkerLoop.CourseIsQuantum` | gcos/kernel/worker_pool.py:178-190 | with a budget that covers the steps the course is the undisturbed quantum and takes exactly the calls made |
| `WorkerLoop.RunQuantum` | gcos/kernel/worker_pool.py:178-216 | the quantum loop and the yield, for any budget and any waits; afterwards the agent is queued or finished unless stopped before its first step; at most one call per step |
| `WorkerLoop.ReparkWaiting` | gcos/kernel/worker_pool.py:218-239 | the start of the wait is recorded once; back to the queue as READY, or ERROR exactly when the agent has waited for the deadline |
| `WorkerLoop.ResolveInput` | gcos/kernel/worker_pool.py:156-169 | takes exactly the oldest message of the agent's own mailbox and ends the wait; without one no step is made |
| `WorkerLoop.ForwardResult` | gcos/kernel/worker_pool.py:193-212 | only a DONE agent sends, to its consumer alone, and the message is dropped exactly when that mailbox is full |
| `WorkerLoop.DispatchAgent` | gcos/kernel/worker_pool.py:148-216 | the whole dispatch: input, quantum, piping, requeue; the budget in use grows by exactly the calls made; afterwards queued or finished unless stopped before the first step; a DONE agent's result is sent exactly when its consumer's mailbox has room; mailboxes change only by the message taken and the result sent |
| `WorkerLoop.QuantumServesBurst` | gcos/kernel/worker_pool.py:178-191 | a quantum of k steps serves min(burst, k) calls in as many steps, finishes the agent exactly when the burst fits, and otherwise leaves the rest of the burst |
| `AgentTraces.ServeHead` | gcos/kernel/worker_pool.py:133-146 | pop, quantum, task_done: the head is served min(burst, limit) calls, then DONE or last in the queue; in-flight is back where it was |
| `AgentTraces.DrainAgents` | gcos/kernel/worker_pool.py:133-216 | a worker on real control blocks of any kind, with a budget that covers their bursts: the calls come in exactly the order of the trace, everybody ends DONE, exactly that many units are used |
| `MessageBuses.MessageBus.Send` | gcos/ipc/message_bus.py:44-71 | delivered exactly when there is room, behind what is there; nobody else's mailbox changes; mailboxes stay bounded |
| `MessageBuses.MessageBus.Receive` | gcos/ipc/message_bus.py:73-79 | the oldest message, None exactly when empty; nobody else's mailbox changes |
| `MessageBuses.MessageBus.DropMailbox` | gcos/ipc/message_bus.py:96-98 | empties exactly that mailbox |
| `DispatchProofs.StepKeepsInv` | gcos/kernel/worker_pool.py:133-279 | every step of every worker and of the world outside keeps the invariant |
| `DispatchProofs.ReachableInv` | gcos/kernel/worker_pool.py:133-279 | the invariant holds in every reachable state |
| `DispatchTheorems.SingleOwner` | gcos/kernel/ready_queue.py:41-80 | an agent is in at most one place: one queue slot, one spawner, or one worker |
| `DispatchTheorems.NoDoubleDispatch` | gcos/kernel/worker_pool.py:133-146 | no two workers ever hold the same agent |
| `DispatchTheorems.InFlightIsExact` | gcos/kernel/ready_queue.py:57-103 | in-flight equals the workers between pop and task_done, so the guard in task_done never hides an underflow |
| `DispatchTheorems.NoAgentIsLost` | gcos/kernel/worker_pool.py:148-216 | before shutdown every spawned unfinished agent is queued or with a worker |
| `DispatchTheorems.DrainedMeansFinished` | gcos/kernel/ready_queue.py:112-115 | before shutdown, drained means every spawned agent is terminal |
| `DispatchTheorems.ShutdownCanStrandAnAgent` | gcos/kernel/worker_pool.py:178-191 | a concrete run in which shutdown leaves a READY agent in a drained pool |
| `DispatchTheorems.LeftBehindExactlyAfterShutdown` | gcos/kernel/worker_pool.py:178-191 | a drained pool can hold an unfinished agent if and only if it was stopped |
| `DispatchTheorems.QuotaIsConserved` | gcos/kernel/worker_pool.py:241-279 | over every run: total grows by the top-ups; used equals calls returned plus summaries written plus units held; at drain no unit is held |
| `DispatchTheorems.RefundNeverTruncates` | gcos/kernel/quota.py:54-57 | whenever a worker may refund, the cap cuts nothing off |
| `DispatchTheorems.RunLedger` | gcos/kernel/worker_pool.py:264-279 | agents' call counters grow by exactly the calls in the run |
| `DispatchTheorems.AgentBounds` | gcos/agent_loop.py:102-174 | an agent makes at most min(granted, limit) calls; it is stepped at most once more than it calls, and a single-shot agent at most once; quota plus calls is constant |
| `DispatchTheorems.StepWithoutCallFinishes` | gcos/executor.py:98-156 | an agent with a step that made no call, and that no worker holds, is terminal, shut down or not |
| `DispatchTheorems.LastStepFinishes` | gcos/agent_loop.py:102-174 | after its last allowed step (the first of a single-shot agent, call bound plus one of a multi-step one) an agent that no worker holds is terminal |
| `DispatchTheorems.ExecutedStepsAreBounded` | gcos/kernel/worker_pool.py:178-191 | the steps executed in any run are at most one per single-shot agent and min(granted, limit) plus one per multi-step agent |
| `DispatchTheorems.StepAfterFinish` | gcos/kernel/pcb.py:166-192 | no step of anybody changes a finished agent's status |
| `DispatchTheorems.KilledStaysKilled` | gcos/kernel/kernel.py:258-278 | in every continuation a killed agent stays ZOMBIE, never pipes, and is charged for at most one further call: that of the one step already past its checks when the kill landed, whose call may start afterwards |
| `DispatchTheorems.OnlyDoneAgentsPipe` | gcos/kernel/worker_pool.py:193-212 | only results of DONE agents are forwarded |
| `DispatchTheorems.TransitionsAreExpected` | gcos/kernel/pcb.py:44-65 | in the thread pool every status change is an edge of the documented graph |
| `DispatchTheorems.BusyWorkersCanMove` | gcos/kernel/worker_pool.py:133-216 | a worker that has popped an agent always has a next step, so no dispatch deadlocks |
| `DispatchMail.MailComesFromDoneAgents` | gcos/ipc/message_bus.py:34-79 | mailboxes stay within a positive bound, and every message in one is from an agent that is DONE |
| `DispatchEffects.PreemptedExactlyAfterTheQuantum` | gcos/kernel/worker_pool.py:171-191 | in any interleaving a dispatch makes at most the quantum of steps (k, at least one, or 10000), and an agent that is preempted unfinished while the pool runs has had exactly that many |
| `DispatchEffects.ForwardsExactlyWhen` | gcos/kernel/worker_pool.py:192-196 | a worker forwards exactly the result of a DONE agent that has a consumer |
| `DispatchEffects.ResultsReachTheirConsumer` | gcos/kernel/worker_pool.py:196-212 | a forwarded result goes behind what its consumer's mailbox holds if there is room, and into no other mailbox |
| `DispatchEffects.ConsumersTakeTheirOldest` | gcos/kernel/worker_pool.py:156-169 | a consumer takes the oldest message of its own mailbox and starts a whole quantum; without one it parks |
| `DispatchEffects.StatusMovesAsAsked` | gcos/kernel/worker_pool.py:148-279 | which status each step of a worker asks for; every other step leaves the status alone, and a finished agent never moves |
| `DispatchEffects.RequeuePutsLast` | gcos/kernel/ready_queue.py:41-53 | a requeued agent is last in the queue unless it is finished |
| `StepRefinement.PoolStepsRealiseRunStep` | gcos/kernel/worker_pool.py:264-279 | for everything a step can meet, the machine has a run of that worker that does to the agent what the step runner does, and nothing else |
| `PoolSteps.EveryPoolStepMeetsTheContract` | gcos/kernel/worker_pool.py:264-279 | from entering a step to settling it, with any steps of anybody in between and kills at any point, the agent's block changes as the step contract says |
| `Schedules.DrainQueue` | gcos/kernel/worker_pool.py:178-216 | the worker's two loops over jobs with given bursts produce the trace |
| `Schedules.TraceServesEveryBurst` | gcos/kernel/scheduler.py:109-134 | under every quantum each agent occurs in the call trace exactly as often as its burst |
| `Schedules.TraceByRounds` | gcos/kernel/scheduler.py:109-134 | serving the first i agents is one round over them, with their leftovers queued at the tail |
| `Schedules.FirstCall` | gcos/kernel/scheduler.py:109-134 | an agent's first call comes after exactly one round over the agents in front of it |
| `Schedules.RoundRobinAnswersNoLater` | gcos/kernel/scheduler.py:48-59 | an agent's first call under RR(k) is no later than under FCFS if and only if k is within FCFS's cap or nobody in front exceeds the cap |
| `Schedules.RunsToCompletionExactlyWhen` | gcos/kernel/scheduler.py:109-134 | a trace is one block per agent if and only if nobody is preempted in front of a waiting agent |
| `Schedules.RoundRobinDegenerates` | gcos/kernel/scheduler.py:120-124 | with a quantum of at least every burst RR and FCFS traces are equal |
| `Schedules.BlocksAreContiguous` | gcos/kernel/scheduler.py:48-59 | run to completion never returns to an agent |
| `RealProcesses.RrOrder` | gcos/osprims/realproc.py:124-143 | the rotating index over the shrinking list refines a FIFO queue, for every assignment of slices and every deadline |
| `RealProcesses.PreemptiveOrderIsRoundRobin` | gcos/osprims/realproc.py:124-143 | the order is a prefix of the RR(1) trace, and all of it when the deadline is ample |
| `RealProcesses.NonPreemptiveOrderIsBlocks` | gcos/osprims/realproc.py:124-143 | without preemption the order is a prefix of one block per child, and all of it when the deadline is ample |
| `RealProcesses.BlockCountBound` | gcos/osprims/realproc.py:227-236 | block_count is at least the number of distinct children, with equality exactly when each is contiguous |
| `RealProcesses.BlockCountCountsChanges` | gcos/osprims/realproc.py:227-236 | for every order block_count is one more than the positions that differ from their predecessor |
| `RealProcesses.ConvoyHasOneBlockPerChild` | gcos/osprims/realproc.py:227-236 | without preemption block_count equals the children dispatched, whatever the deadline |
| `RealProcesses.PreemptionShowsExactlyWhen` | gcos/osprims/realproc.py:227-236 | with preemption block_count exceeds the children exactly when a child needs two slices while a later one needs any |
| `RealProcesses.MaxConsecutiveRun` | gcos/osprims/realproc.py:213-224 | the longest run of equal entries: attained and not exceeded |
| `Pages.Estimate` | gcos/memory/tokens.py:13-17 | zero exactly for the empty text, one below four characters, otherwise a quarter of the length rounded down |
| `Pages.ContextSizeAdds` | gcos/memory/context_pager.py:34-35 | the size of a context is the sum over its parts |
| `Pages.ContextSizeOfOne` | gcos/memory/context_pager.py:29-31 | a page counts its recorded tokens, and the estimate of its text exactly when it has none |
| `Pages.OldestAreOldest` | gcos/memory/evict_summarize.py:60-61 | everything selected is at least as old as everything left behind |
| `Pages.SortedSorts` | gcos/memory/swap.py:67-68 | the sort orders by last access and keeps the pages |
| `Pager.EvictKeeps` | gcos/memory/evict_lru.py:24-34 | every policy keeps all pinned pages, keeps every survivor's place relative to the others, and shrinks the count by exactly what it reports; LRU and swap only delete, summarising inserts exactly its summary; a policy that raises changes nothing |
| `Pager.LruTakesTheOldest` | gcos/memory/evict_lru.py:24-34 | one least recently used unpinned page goes once more than the floor are there, and none otherwise |
| `Pager.SwapTakesTheOldest` | gcos/memory/swap.py:62-84 | what a swap-out takes are the oldest unpinned pages, whatever their role, and all else stays |
| `Pager.SummaryReplacesTheOldest` | gcos/memory/evict_summarize.py:53-112 | a summary replaces exactly the oldest pages that are not pinned, not summaries and not from the system |
| `Pager.SummariesWeigh` | gcos/memory/evict_summarize.py:95-112 | a summary is never summarised again, is not pinned, and counts what the model reported or the estimate of its text |
| `Pager.SwapGoesBelowFloorExactlyWhen` | gcos/memory/swap.py:62-68 | a swap-out leaves fewer unpinned pages than the floor if and only if a positive floor is exceeded by fewer pages than a batch takes |
| `Pager.DefaultSwapLeavesOneOfThree` | gcos/memory/__init__.py:31-31 | with the default batch and floor of 2, three unpinned pages leave one |
| `Pager.SwapTakes` | gcos/memory/swap.py:62-68 | min(batch, what is there) unpinned pages go once more than the floor are there, and none otherwise |
| `Pager.AssembleOutcome` | gcos/memory/context_pager.py:71-98 | for any stack: the context fits, or in the round it stopped at no policy can free a page, or the guard is used up, or in the round it stopped at a policy raises; in each case pinned pages and the survivors' order are kept, only summaries written meanwhile are inserted, and shrinkage is the sum of the reports |
| `Pager.LaterTiersAreDead` | gcos/memory/__init__.py:26-32 | in the default stack the later tiers never free anything that LRU does not |
| `Pager.DefaultStackIsLru` | gcos/memory/__init__.py:26-32 | the default pager equals LRU alone on all inputs and never raises |
| `Pager.LruIsFifo` | gcos/memory/evict_lru.py:24-34 | when recency agrees with list order, LRU is FIFO with the fewest drops that fit |
| `Pager.DropsIsLeast` | gcos/memory/context_pager.py:71-98 | the number of drops is the least that fits, within the limit |
| `Pager.DefaultPagerClosedForm` | gcos/memory/context_pager.py:71-107 | the default pager drops exactly the shortest prefix of unpinned pages that makes the context fit, limited to 16 drops and a floor of 2 |
| `Pager.RecencyIsKept` | gcos/memory/context_pager.py:100-107 | touching and appending under a monotone clock, and evicting, keep recency in list order |
| `Pager.RecencyHoldsForLife` | gcos/kernel/pcb.py:101-116 | so it holds throughout any life without swap_in |
| `Pager.SummaryLandsInPlace` | gcos/memory/evict_summarize.py:101-112 | when candidate recency agrees with list order the summary takes the first replaced page's position, and everything before it is unchanged |
| `PagerLoop.Context.DropStalest` | gcos/memory/evict_lru.py:24-34 | in-place LRU equals its function |
| `PagerLoop.Context.SwapOut` | gcos/memory/swap.py:62-84 | in-place swap removes exactly the batch that is written |
| `PagerLoop.Context.Compress` | gcos/memory/evict_summarize.py:52-115 | with a quota the unit taken is kept exactly when the call returned; a raising call refunds it and leaves the pages; without a quota nothing is charged; an empty batch fails after the call |
| `PagerLoop.Context.ApplyPolicy` | gcos/memory/context_pager.py:78-79 | one policy in place; a summary is denied only by a dry budget, and charged exactly when its call returned |
| `PagerLoop.Context.TryPolicies` | gcos/memory/context_pager.py:77-86 | policies in order until one frees something or raises; the budget in use grows by exactly the summarise calls that returned |
| `PolicyRuns.RoundsAreAssemble` | gcos/memory/context_pager.py:75-98 | the rounds with their paid calls end with the pages and the exception that the assembling function gives |
| `PagerLoop.Context.EvictToBudget` | gcos/memory/context_pager.py:75-98 | the guarded loop equals its function, raising or not, under the model's replies and the denials of a dry budget; the budget in use grows by exactly the summarise calls that returned |
| `PagerLoop.Context.TouchAll` | gcos/memory/context_pager.py:100-104 | every page is touched, and the messages are the pages in order |
| `PagerLoop.Context.AssembleMessages` | gcos/memory/context_pager.py:58-107 | the whole of assemble: reduced budget for the extra prompt, eviction with its charges, touch, messages; a policy that raises leaves the pages as evicted so far |
| `SwapSpace.RoundTrip` | gcos/memory/swap.py:34-50 | deserialising a serialised page gives the page back |
| `SwapSpace.RoundTripAll` | gcos/memory/swap.py:34-50 | the same for a whole file |
| `SwapSpace.WriteContents` | gcos/memory/swap.py:70-78 | disk contents after a write: what was there, less an overwritten file, plus the new file |
| `SwapSpace.SwapOutLoses` | gcos/memory/swap.py:62-84 | a swap-out loses exactly the pages of a file it overwrites |
| `SwapSpace.SwapOutConserves` | gcos/memory/swap.py:62-84 | pages in memory plus pages on disk are conserved if and only if nothing is swapped or the stamp's file holds no page |
| `SwapSpace.SwapRunConserves` | gcos/memory/swap.py:62-84 | conserved over every run with distinct fresh stamps |
| `SwapSpace.OneRestoreIsLossless` | gcos/memory/swap.py:87-104 | from an empty directory, any run of swap-outs and one restore give back exactly the original pages |
| `SwapSpace.SecondRestoreDuplicates` | gcos/memory/swap.py:87-104 | after two restores the list is the old pages followed by everything on disk twice |
| `SwapSpace.RestorePages` | gcos/memory/swap.py:96-104 | the restoring loops append everything on disk in file order, or fail on a malformed entry |
| `ProcessTree.SpawnKeepsLinks` | gcos/kernel/kernel.py:234-240 | after any spawn at all, child links lead to younger agents or from a self-named agent to itself, and a listed child names its lister |
| `ProcessTree.SpawnRegistersAndLinks` | gcos/kernel/kernel.py:223-240 | the newcomer is READY and childless, its parent if registered lists it last, and nobody else changes |
| `ProcessTree.SpawnKeepsForest` | gcos/kernel/kernel.py:223-240 | a spawn keeps a forest with increasing PIDs and matching links if and only if it names no parent or a PID handed out before |
| `ProcessTree.DescendantsOf` | gcos/kernel/process_tree.py:39-47 | unless the agent named itself, the loop ends and returns exactly the agents reachable through registered agents, each once |
| `ProcessTree.DescendantsWalkEndsExactlyWhen` | gcos/kernel/process_tree.py:39-47 | after any history the stack loop runs empty if and only if the agent did not name itself |
| `ProcessTree.SelfParentIsItsOwnChild` | gcos/kernel/kernel.py:236-240 | whatever came before, an agent that names itself is its own child, and the stack loop for it never runs empty |
| `Ancestry.AncestorsOf` | gcos/kernel/process_tree.py:49-58 | whenever the walk ends it returns the whole chain of registered ancestors, nearest first |
| `Ancestry.SpawnKeepsGrounded` | gcos/kernel/kernel.py:234-240 | a spawn keeps every walk up finite if and only if the chain of parents it names does not lead to its own PID |
| `Ancestry.ForestIsGrounded` | gcos/kernel/process_tree.py:49-58 | every walk up in a forest ends |
| `Ancestry.DescendantsAndAncestorsAgree` | gcos/kernel/process_tree.py:39-58 | in a forest walking down and walking up agree |
| `Kernels.Kernel.Spawn` | gcos/kernel/kernel.py:210-250 | PIDs increase; the child is registered, linked and queued; the links stay sound whatever parent is named |
| `Kernels.Kernel.ReapDescendants` | gcos/kernel/process_tree.py:62-73 | exactly the unfinished descendants become ZOMBIE and are counted; links stay |
| `Kernels.Kernel.Kill` | gcos/kernel/kernel.py:258-278 | refused exactly for unknown and finished agents; otherwise the whole subtree is finished, its mailboxes dropped, the victim alone unqueued, nothing else touched |
| `Kernels.Kernel.ReapTerminal` | gcos/kernel/kernel.py:280-293 | exactly the finished agents and their mailboxes go and are counted; queue and links are kept |
| `Kernels.ReapKeepsTheUnfinished` | gcos/kernel/kernel.py:280-293 | after a reap exactly the unfinished agents are registered, unchanged |
| `Kernels.KillMarksTheSubtree` | gcos/kernel/kernel.py:258-278 | a kill changes statuses only, and exactly those of the victim and its unfinished descendants, to ZOMBIE |
| `Kernels.HistoryKeepsLinks` | gcos/kernel/kernel.py:210-293 | the links are sound after any mix of spawns, transitions, kills and reaps |
| `Kernels.AlwaysGroundedExactlyWhen` | gcos/kernel/process_tree.py:49-58 | over a history every walk up always ends if and only if no spawn names a chain of parents leading to its own PID |
| `Kernels.HistoryIsForest` | gcos/kernel/kernel.py:210-293 | a forest after any mix of spawns under older parents, transitions, kills and reaps |
| `Kernels.FinishedForever` | gcos/kernel/pcb.py:166-192 | a finished agent never changes status while registered, whoever requests a transition, and its PID never comes back |
| `Kernels.KillIsForever` | gcos/kernel/kernel.py:258-278 | after a kill the victim and all its registered descendants are finished in every continuation, whoever writes |
| `Kernels.NamingEachOtherLoops` | gcos/kernel/process_tree.py:49-58 | two spawns after which walking up never ends |
| `Kernels.NamingAFuturePidMayEnd` | gcos/kernel/process_tree.py:49-58 | two spawns with a future parent after which walking up ends |
| `KillCascade.CascadeRealisesKill` | gcos/kernel/kernel.py:264-273 | the cascade's events do to the running pool exactly what kill does to the table |
| `KillCascade.CascadeIsForever` | gcos/kernel/kernel.py:258-278 | once every victim's kill event has happened, in any interleaving, each is finished and stays so in every continuation; a ZOMBIE never pipes and is charged for at most the call of the one step past its checks |
| `ProcessPool.StepKeepsInv` | gcos/kernel/process_pool.py:222-359 | every step of workers, children, killers and spawners keeps the invariant |
| `ProcessPool.NeverUnderCharges` | gcos/kernel/process_pool.py:226-237 | always: used equals live reservations plus settled charges, covers all calls made so far and stays within the total; exact when every child reported |
| `ProcessPool.RefundIsNeverTruncated` | gcos/kernel/process_pool.py:321-330 | the unspent rest of a reservation is handed back in full |
| `ProcessPool.CallsStayWithinGrant` | gcos/kernel/process_pool.py:262-270 | no agent exceeds its quota, no child its reservation |
| `ProcessPool.FinishedForever` | gcos/kernel/process_pool.py:352-356 | no later writer, a report included, changes a finished agent's status |
| `ProcessPool.DrainedMeansFinishedOrSpun` | gcos/kernel/process_pool.py:262-270 | at drain an unfinished agent is one that made exactly 64 calls in its child |
| `ProcessPool.LeftBehindExactlyWhen` | gcos/kernel/process_pool.py:56-56 | a drained pool can hold an unfinished agent if and only if its two call limits and the budget all reach 64 |
| `ProcessPool.ReserveForksExactlyWhen` | gcos/kernel/process_pool.py:226-237 | in every reachable state an agent gets a child exactly when its quota or the budget allows, reserving the smaller of the two; else nothing is charged and it is requeued unless finished |
| `ProcessPool.SilentChildLeavesError` | gcos/kernel/process_pool.py:332-341 | a child that reports nothing leaves ERROR unless the agent was finished, its calls unknown, its reservation spent |
| `ProcessPool.ReportLeavesTheChildsResult` | gcos/kernel/process_pool.py:349-359 | a report leaves the child's calls, and its status unless the agent was finished; the agent's quota pays for exactly those calls |
| `ProcessPool.ReparkLeaves` | gcos/kernel/process_pool.py:206-220 | an agent without input is READY in the queue, or ERROR once its deadline has passed |
| `ProcessKills.KilledSpendsAtMostItsReservation` | gcos/kernel/process_pool.py:222-330 | in every continuation after a kill: without a live child no further call is made; with one, which the signal may have missed, all it ever makes stays within its reservation and the agent's grant |
| `ChildSupervisor.ChildSpendsAtMostTheReservation` | gcos/kernel/process_pool.py:262-270 | a child's step loop makes at most `reserve` calls |
| `ChildSupervisor.ChildReportsItsEnd` | gcos/kernel/process_pool.py:260-276 | a child whose step raises reports ERROR, otherwise the status its steps left; the calls are those it made |
| `ChildSupervisor.ApplyResult` | gcos/kernel/process_pool.py:332-359 | a report leaves its status and calls, no report leaves ERROR and the calls as they were; a finished status is never overwritten; the block is consistent afterwards exactly when the agent is finished |
| `ChildSupervisor.RunInProcess` | gcos/kernel/process_pool.py:222-330 | a dry budget charges nothing and requeues the agent unless finished; a reported child is charged its calls, a silent one its reservation, and the agent's quota shrinks by the same; ZOMBIE if killed, else ERROR if silent, else the child's status |
| `ShmRing.UnpackPack` | gcos/osprims/shm.py:85-102 | the little-endian length prefix round trips |
| `ShmRing.PackIsLittleEndian` | gcos/osprims/shm.py:85-85 | the prefix is four bytes, the least significant first |
| `ShmRing.SlotsDiffer` | gcos/osprims/shm.py:90-92 | offsets less than the capacity apart use different slots |
| `ShmRing.Ring.Send` | gcos/osprims/shm.py:82-94 | refuses exactly when the frame does not fit; otherwise appends; the bytes from tail to head are the frames of the pending messages |
| `ShmRing.Ring.Receive` | gcos/osprims/shm.py:96-109 | returns the oldest payload unchanged, None exactly when empty; the partial-frame branch is unreachable |
| `ShmRing.NothingLostOrReordered` | gcos/osprims/shm.py:82-109 | over any history what was accepted is what was delivered followed by what is pending |
| `ShmRing.Serve` | gcos/osprims/shm.py:82-109 | any history of sends and receives on the byte ring answers as a bounded FIFO queue |
| `PageStore.Slots` | gcos/osprims/vmem.py:109-110 | the least positive number of pages that holds the data |
| `PageStore.ContentsAreLastStored` | gcos/osprims/vmem.py:108-145 | over any history a key holds what was last stored successfully under it |
| `PageStore.RepliesFollowTheHistory` | gcos/osprims/vmem.py:108-145 | over any history every read is answered with what was last stored under its key, and a store is refused exactly when the slots handed out so far leave too few |
| `PageStore.CountersBalance` | gcos/osprims/vmem.py:108-145 | over any history page-outs minus fault-ins is what is out now plus what was displaced while out, and the slots in use fit |
| `PageStore.MmapPageStore.StorePage` | gcos/osprims/vmem.py:108-118 | extents stay disjoint and inside capacity; exactly one entry changes; refused exactly when slots run out |
| `PageStore.MmapPageStore.PageOutKey` | gcos/osprims/vmem.py:120-133 | contents unchanged; counted once per resident entry |
| `PageStore.MmapPageStore.ReadPage` | gcos/osprims/vmem.py:135-143 | returns the stored bytes; a fault-in is counted exactly for paged-out entries |
| `PageStore.Serve` | gcos/osprims/vmem.py:108-145 | any history on the byte array answers as the dictionary |
| `TokenBuckets.AttemptKeepsSound` | gcos/backend/batcher.py:74-81 | tokens stay within 0 and capacity; a grant is paid from level and inflow |
| `TokenBuckets.AttemptIsExact` | gcos/backend/batcher.py:74-81 | the level rises by exactly the inflow up to the capacity; an attempt succeeds exactly when the level covers it and takes exactly what it asked for |
| `TokenBuckets.NoTokensFromNowhere` | gcos/backend/batcher.py:74-81 | over any interleaving, what is handed out plus what is left is at most the level at the start plus the inflow |
| `TokenBuckets.RateIsBounded` | gcos/backend/batcher.py:71-86 | in any window of any interleaving at most capacity + rate * T is granted |
| `TokenBuckets.RetrySucceedsExactlyWhen` | gcos/backend/batcher.py:82-86 | with no grant in between, a retry succeeds if and only if the request fits the bucket and the computed wait has passed |
| `TokenBuckets.OversizedRequestsNeverSucceed` | gcos/backend/batcher.py:71-86 | a request above capacity fails in every run |
| `TokenBuckets.TokenBucket.Attempt` | gcos/backend/batcher.py:74-83 | one locked section equals its function and computes the wait |
| `TokenBuckets.TokenBucket.Acquire` | gcos/backend/batcher.py:71-86 | with any attempts of other callers in between, its own attempts all fail but the last, which succeeds exactly when the amount is taken; gives up exactly when the computed wait after a failed attempt ends past the deadline |

## Left out

- LLM client, HTTP API, event stream, dashboard, shell and command line: input and output only.
- Coder internals (policy gate, code extraction, sandboxes): the coder is a single-shot step whose gate and sandbox verdicts are parameters.
- `parse_action`, `_safe_calc` and the tools: string handling; a reply is "final", "tool" or "raised".
- Signals, fork, cgroups, madvise and real page faults: a child reports or dies silently, and madvise leaves contents unchanged. A failing fork, which would leave a reservation charged, is not modelled.
- Interleavings inside `ShmRing.send` and `recv`, and inside `transition`: the code does not make them atomic; the model takes them as atomic.
- Wrap-around of the ring's 64-bit head and tail counters: offsets are unbounded.
- Floating-point rounding and the wall clock: times and rates are reals or abstract non-decreasing readings; `priority_to_weight` is not modelled.
- Starvation freedom of the priority scheduler: the aging cap does not give it; dominance and the bound for fully aged agents are proved instead.
- `ProcessTree.link`, `tree_view` and `roots`, the ring log, the PID allocator's locking and the statistics of the batching client: bookkeeping.
- Summaries paid from a forked child's own copy of the budget: not visible to the parent; the process pool model has no summaries.
- A summarise call without a supplied client whose construction raises keeps its unit: the pool model covers calls made with a supplied client.
- The pages that a step records in the context: the pager's results hold for any page list, so the step model does not carry it.
- MessageBuses.MessageBus.Send: the blocking mode with a timeout is not modelled; nothing in the repository uses it.
- Kernels.Kernel.Kill: requires that a victim did not name itself as parent, as `ProcessTree.DescendantsOf` does; for such an agent the source does not return.
- Ancestry.AncestorsOf: requires that the walk ends; otherwise the source does not return.
- TokenBuckets.RateIsBounded: requires a positive rate and a non-negative capacity, for which the source promises it.
- PageStore.MmapPageStore.StorePage: records the reserved bytes rather than the number of slots, since only their product with the page size is used.
