# workhorseRT: a model of the scheduler core and its neighbours

The project models the per-CPU tick machine of workhorseRT, the scheduling policies that sit under it, the timing and
locking structures it is built from, and two machines that sit on it, and proves what they are for: how much processor
time a thread can get, that every task is always where its state says, that the right thread runs, that the lock is
fair, that interrupts nest, that a call comes back.

* `DeltaSeq`, `DeltaChain`: the delta chain, first as a value that stands for a sorted list of expiry times, then as the
  doubly linked heap structure.
* `Lists`: the singly linked queue and the stack on the heap.
* `Tasks`, `TickSpec`: tasks, states and configurations, and the tick machine as a transition system in which a tick
  acts on every task at once. Every kernel entry is one event. A policy is an oracle bound by a contract
  (`Rule.Contract`) or by the exact rules of the configured policy (`Rule.Exact`).
* `TickInv`, `ThreadView`, `Charging`, `Supply`, `Account`, `Controls`, `PolicyRuns`, `Deadlines`: theorems about all
  runs of that system.
  `DeadlineGaps`: runs in which a deadline does not come closer by one.
* `Containers`, `TickLoops`, `TickRefine`, `TickSetup`, `TickMachine`: the machine as the source runs it, a class whose
  fields are the containers and whose loops drain them, proved to be the transition system.
* `Bitmap`, `RoundRobin`, `Cyclic`, `Edf`, `EdfChain`: the three policies, each a class over its own data structure
  proved against functions on values, and those functions proved to answer what `Rule.Exact` demands. The class of EDF
  runs on the linked nodes of `DeltaChain`.
* `PolicyFace`, `Policies`, `PolicyTick`, `Coupled`: the table of operations the kernel calls the policies through, and
  the machine run together with the configured policy's own data from start-up on. Every such run is a run of
  `Rule.Exact`, so the theorems about runs hold of the policies as they are programmed.
* `Turns`, `Timeslice`: in which order threads get the processor on such runs, and for how long.
* `Mcs`: the MCS lock as an interleaving of its atomic steps.
* `Bits`, `VectorMap`, `X2apic`, `Startup`, `Ipi`: the emulated x2APIC (Intel SDM Vol. 3A, sections 10.8 and 10.12).
* `Tpr`, `LsrOrder`: the cached task-priority register and the order of pending LSRs.
* `Invocation`: the domain invocation stack.

`dafny verify dfyconfig.toml` checks everything.

## Where code and documentation differ

The model follows the code.

* doc/sched/algorithm/bcs.md:17-21 promises its bound for windows of length P or Q + P depending on Q; the code gives
  the longer window in both cases, which is what `Supply.BcsSupply` states.
* doc/sched/policy/edf.md says a passed deadline is reset the next time the task becomes ready. The code also resets it
  while the task stays ready, at the next rescheduling point (kSchedEdf.c:68-89), and when it passes on the tick that
  charges the task (kSchedEdf.c:229-231). `Edf.FixedLeft` and `Deadlines.DeadlineKept` describe what happens.
* doc/sched/policy/edf.md describes deadlines as relative times that run out. In the code a deadline does not come
  closer by one with every tick: the lemmas `SleepCostsPeriod`, `PendingStandsStill`, `WakingAddsCooldown` and
  `DsThrottleCostsTick` of `DeadlineGaps` give a run from start-up for each exception, and `Deadlines.DeadlineKept` the
  exact condition.
* theories/Lib/Dsa/DeltaChain.v:118 inserts in front of ties; include/lib/dsa/deltaChain.h:68 inserts behind them.
* include/lib/dsa/deltaChain.h:163 warns that the constant-time answer is only safe before the expected epoch has
  passed; `DeltaSeq.TickStamped` gives the exact condition.
* `ia32eEmulatorX2apicReset` never assigns its `task`; it is modelled on the vCPU that is being launched.

## Model

| member | source | states |
|---|---|---|
| Supply.BcsSupply | src/workhorse/kTick/kTick.c:187-204 | on every run from start-up, under every policy, with every mix of running, yielding, throttling, sleeping and LSR preemption: in any window of budget + period consecutive ticks a thread ran in at most `budget` of them; both cases of doc/sched/algorithm/bcs.md:17-21 follow |
| Supply.TickBound | src/workhorse/kTick/kTick.c:428-443 | the inductive heart: what a thread's state says about the charges in every window ending now survives one tick, the sleep that counts towards the cooldown included |
| Supply.SupplyRun | src/workhorse/kTick/kTick.c:377-412 | both servers: every window of the charge log of every run is within the bound |
| Supply.DsSupply | src/workhorse/kTick/kTick.c:394-408 | a deferrable server runs in at most twice its budget of any `period` consecutive ticks, on every run |
| Supply.DsReplenishment | src/workhorse/kTick/kTick.c:312-319 | replenishments of a deferrable server fall on exactly every `period`-th tick of every run, for ever, whatever the thread does in between, and each of those ticks leaves it with a full budget |
| Supply.DsBetweenReplenishments | src/workhorse/kTick/kTick.c:394-408 | from any reachable state a deferrable server is charged at most the budget it has left up to and including the tick of its next replenishment |
| Supply.CooldownLength | src/workhorse/kTick/kTick.c:297-309 | on every run, with anything happening in between: a throttled thread stays out for exactly the ticks left on the replenishment chain, at most its period, and the last of them brings it back, ready or already running, with a full budget |
| Supply.BeatsPeriodic | src/workhorse/kTick/kTick.c:312-319 | a countdown that restarts at `p` runs out at its start value and then exactly every `p` ticks |
| Charging.ChargedIffRan | src/workhorse/kTick/kTick.c:323-448 | exact charging on every run: a thread pays for a tick if and only if it ran at some moment since the tick before and has not failed, whether it still runs, yielded, throttled, slept or was preempted by an LSR |
| Charging.ChargeCost | src/workhorse/kTick/kTick.c:377-448 | one charge costs one tick of budget, or all of it after a voluntary throttle; nobody else pays, and a budget that reaches zero is refilled on the spot exactly when the thread is not throttled for it |
| Account.BudgetKept | src/workhorse/kTick/kTick.c:289-487 | exact accounting on every run, both servers: whatever mix of running, preemption, yielding and sleeping lies between, a thread that does not throttle itself has what it had minus the ticks it paid for, so it is not throttled before it has been charged for all of it |
| Account.UsedUp | src/workhorse/kTick/kTick.c:377-448 | the tick that charges the last of the budget takes a thread with a period off the processor for exactly its period under BCS, until the next replenishment under DS, or for the rest of the sleep that starts in it if that is longer |
| Account.AwayFor | src/workhorse/kTick/kTick.c:450-487 | on every run a thread that cools down, sleeps or is falling asleep is away for exactly the ticks its state says, sleep without budget counting towards the cooldown, and comes back with what it had, or with a full budget if it had none |
| Controls.YieldCosts | src/workhorse/kSyscall/kSyscall.c:228-231 | after a yield the tick that comes next costs exactly one tick of budget and the thread can run again; if it was the last one the thread cools down for it, unless it has no period or is replenished in that tick |
| Controls.ThrottleCosts | src/workhorse/kSyscall/kSyscall.c:234-237 | after a throttle the tick that comes next leaves the thread throttled without budget for its cooldown, unless it has no period or is replenished in that tick |
| Controls.SleepLasts | src/workhorse/kSyscall/kSyscall.c:252-255 | a thread that sleeps for `n` ticks does not run before exactly `n` ticks have passed and can run with the last of them, one tick of budget poorer; if that was its last tick it is away until its budget is back, should that be later |
| Controls.DoneUntilPushed | src/workhorse/kSyscall/kSyscall.c:240-243 | an LSR that is done does not run before its interrupt pushes it again, and until then it can be pushed, on every run |
| Controls.FailedForGood | src/workhorse/kSyscall/kSyscall.c:246-249 | a failed task never runs again on any run |
| TickInv.RunInv | src/workhorse/kTick/kTick.c:540-691 | for every policy that keeps the contract the machine invariant holds after every run: state and timing fields agree, one running task, the pending slot and the LSR stack hold exactly the tasks whose states say so, idle runs only when nothing is ready |
| TickInv.StepInv | src/workhorse/kTick/kTick.c:540-691 | every kernel entry keeps that invariant |
| TickInv.TickTaskOk | src/workhorse/kTick/kTick.c:289-487 | one tick keeps the invariant of each task: READY, RUNNING, deferred and pending threads have budget left, no tick stays deferred |
| TickInv.PoppedIsReady | src/workhorse/kTick/kTick.c:52-64 | the assertions of the pop: the task the policy returns is READY and never an LSR |
| TickInv.LeaveOk | src/workhorse/kTick/kTick.c:491-506 | taking the running task off the processor, into any state it may leave for, keeps the invariant |
| TickInv.DispatchOk | src/workhorse/kTick/kTick.c:52-64 | dispatching what the policy returned keeps the invariant and takes exactly that thread out of the ready set |
| TickInv.PointInv | src/workhorse/kTick/kTick.c:509-537 | a rescheduling point ends the tick's intermediate state: no spent thread keeps running, and something runs |
| ThreadView.ViewOk | src/workhorse/kTick/kTick.c:540-691 | every run of the machine, seen by one thread, is a chain of ticks and of moves that never touch its budget |
| ThreadView.StepMoves | src/workhorse/kTick/kTick.c:607-691 | no event but the tick changes a thread's account; who owes the next tick still owes it, and nobody is made to pay for a tick it did not run in |
| PolicyRuns.ExactRun | include/workhorse/kSched/kSched.h:45-55 | every run in which the answers are the ones round robin, EDF or cyclic scheduling owe is a run the contract allows, and in every state it reaches the running thread has the best claim |
| PolicyRuns.StepExact | src/workhorse/kTick/kTick.c:509-537 | one kernel entry with the answers the configured policy owes stays within the contract and leaves the right thread running |
| Deadlines.RightThreadRuns | src/workhorse/kSched/kSchedPolicy/kSchedEdf.c:270-315 | in every reachable state idle runs only if nothing is ready, no ready thread outranks the running one (round robin), and under EDF the running thread has a deadline still ahead and none is earlier; `Coupled.RightThreadRuns` says it of the policies' code |
| Deadlines.TurnsNeverUnderflow | src/workhorse/kSched/kSchedPolicy/kSchedEdf.c:192-231 | on every run of the configured policy no timeslice counter and no deadline is decremented when it is zero |
| Deadlines.DeadlineKept | src/workhorse/kSched/kSchedPolicy/kSchedEdf.c:192-231 | EDF, under both throttling algorithms: a tick brings the deadline of a thread that can be ready again before it exactly one tick closer if and only if it does not wait PENDING, its budget does not run out as its sleep starts (unless that sleep is over at once), it does not wake without budget into a cooldown, and, under DS, its budget does not run out; a deadline that cannot be met starts over |
| Deadlines.DeadlineRun | src/workhorse/kSched/kSchedPolicy/kSchedEdf.c:192-231 | over whole runs: as long as every tick finds the deadline ahead and accounted for, it comes closer by exactly the ticks that pass, through any mix of running, preemption, yielding, sleeping and cooling down |
| DeadlineGaps.SleepCostsPeriod | src/workhorse/kSched/kSchedPolicy/kSchedEdf.c:198-225 | a run from start-up whose last tick brings the deadline three ticks closer: the budget runs out as the sleep starts, and both the sleep and the period are taken off |
| DeadlineGaps.PendingStandsStill | src/workhorse/kTick/kTick.c:323-448 | a run from start-up whose last tick leaves the deadline where it was: the thread waits PENDING under an LSR |
| DeadlineGaps.WakingAddsCooldown | src/workhorse/kTick/kTick.c:468-480 | a run from start-up whose last tick moves the deadline away: the thread wakes without budget into what is left of its period |
| DeadlineGaps.DsThrottleCostsTick | src/workhorse/kSched/kSchedPolicy/kSchedEdf.c:212-225 | a run of a deferrable server from start-up whose last tick brings the deadline two ticks closer: the time left on the chain is read before the chain is ticked |
| Deadlines.DeadlineUntouched | src/workhorse/kSched/kSchedPolicy/kSchedEdf.c:118-170 | no event but the tick moves a deadline |
| Coupled.PoliciesKeepContract | src/workhorse/kTick/kTick.c:509-678 | from an empty processor, through any plugins and every run after that, with every answer computed by the configured policy from its own data and the calls of a tick in any order: the answers are the ones the policy owes, the contract is kept, and policy and machine agree in every state |
| Coupled.StepCoupled | src/workhorse/kTick/kTick.c:509-678 | one kernel entry with the policy's own answers: they are the ones it owes, and policy and machine agree afterwards |
| Coupled.ReplaceCoupled | src/workhorse/kTick/kTick.c:529-536 | the three calls of a rescheduling point, test, push and pop, one after the other on the policy's data, amount to the machine's exchange of the running task for the first in line |
| Coupled.CanHappen | src/workhorse/kTick/kTick.c:540-678 | whatever kernel entry can happen, the policy has an answer to it and a tick an order to make its calls in, so coupled runs never get stuck |
| Coupled.PluggedAgrees | src/plugin/kPlugin.c:39-169 | after any sequence of plugins, the refused ones included, the machine is in a start-up state and the policy's data agree with it |
| Coupled.CyclicCount | src/workhorse/kSched/kSchedPolicy/kSchedCyclic.c:69-149 | the ready count of the cyclic policy is the number of READY threads in every state of every run |
| Coupled.RightThreadRuns | include/workhorse/kSched/kSched.h:45-55 | with the policies as programmed the right thread runs in every state reached, and no timeslice and no deadline is decremented at zero |
| PolicyTick.TickAgrees | src/workhorse/kTick/kTick.c:540-562 | the transition callback and then one call per charged thread and one per thread that becomes ready, in any order, take the policy's data to where the tick takes the machine |
| PolicyTick.ScriptExists | src/workhorse/kTick/kTick.c:540-562 | every tick has such a sequence of calls |
| Policies.PoppedAgrees | include/workhorse/kSched/kSched.h:45-55 | whichever policy is configured, the pop answers with a task it may answer with, and leaves the policy in agreement with the dispatch |
| Policies.TestedAgrees | include/workhorse/kSched/kSched.h:45-55 | whichever policy is configured, the test answers yes exactly when a ready thread should take over, and leaves the policy in agreement |
| TickMachine.TickMachine.constructor | include/workhorse/kSched/kSched.h:73-92 | the state before any plugin runs: an idle task that is ready, nothing else, and everything the kernel entries keep |
| TickMachine.TickMachine.AddThread | src/plugin/kPlugin.c:39-135 | a thread is refused exactly for an unknown domain or processor, a taken id, no budget, no timeslice or deadline, or parameters the policy or the architecture does not take; otherwise it joins ready, full, and under DS on the replenishment chain |
| TickMachine.TickMachine.AddLsr | src/plugin/kPlugin.c:137-169 | an LSR is refused exactly for an unknown domain or processor, a taken id, or parameters the architecture does not take; otherwise it joins dormant, on its vector |
| TickMachine.TickMachine.LoadNextState | src/workhorse/kTick/kTick.c:121-287 | the change of state together with the container that goes with it |
| TickMachine.TickMachine.ReplenishmentPeriod | src/workhorse/kTick/kTick.c:289-321 | the loop over the chain terminates, though it re-inserts under DS, and does to every task what the per-task replenishment says, keeping every container in agreement |
| TickMachine.TickMachine.HandleDeferredTicks | src/workhorse/kTick/kTick.c:323-414 | the loop drains the stack of deferred ticks; every task is charged once, and a thread throttled while pending gives up the slot |
| TickMachine.TickMachine.ChargeRunningTask | src/workhorse/kTick/kTick.c:416-448 | the running task is charged and nothing else changes |
| TickMachine.TickMachine.SleepPeriod | src/workhorse/kTick/kTick.c:450-487 | the loop over the sleepers terminates and wakes exactly those whose sleep is over, into ready or into the rest of their cooldown |
| TickMachine.TickMachine.RunPhases | src/workhorse/kTick/kTick.c:540-562 | all loops of a tick together are the simultaneous per-task tick |
| TickMachine.TickMachine.TickTransition | src/workhorse/kTick/kTick.c:540-562 | a tick keeps the container agreement and the machine invariant, and is the tick event of the specification |
| TickMachine.TickMachine.ReschedulingPoint | src/workhorse/kTick/kTick.c:509-537 | the rescheduling point as code is that of the specification, with a policy free to answer anything the contract allows |
| TickMachine.TickMachine.TickReschedule | src/workhorse/kTick/kTick.c:607-678 | the reschedule entry, pending LSRs first, then the pending slot, then the policy; a pending task whose tick is still deferred is the top of the deferred stack |
| TickMachine.TickMachine.LsrPush | src/workhorse/kTick/kTick.c:578-584 | pushing an LSR off its vector keeps agreement and invariant |
| TickMachine.TickMachine.LsrPushCurrent | src/workhorse/kTick/kTick.c:586-605 | putting the interrupted task aside keeps agreement and invariant |
| TickMachine.TickMachine.SchedCtrl | src/workhorse/kSyscall/kSyscall.c:307-378 | which controls are refused, that a refused one and a sleep of no time change nothing, that a sleep is rounded up to the fewest ticks that last long enough, and that an accepted one is its event |
| Containers.LoadAgrees | src/workhorse/kTick/kTick.c:121-287 | a detached task put into its next state leaves every task in exactly the container its state names, and nothing linked twice |
| TickRefine.PhasesDone | src/workhorse/kTick/kTick.c:540-562 | the four loops one after the other amount to one step of the abstract machine, slot included |
| TickRefine.LeaveRefines | src/workhorse/kTick/kTick.c:491-506 | leaving the processor, on containers, is leaving it in the specification |
| TickLoops.DrainAll | src/workhorse/kTick/kTick.c:323-414 | when the deferred stack is empty every task has taken its deferred tick |
| TickLoops.ReplenishAll | src/workhorse/kTick/kTick.c:289-321 | when nothing on the chain is expired any more every task has been through its replenishment |
| DeltaSeq.InsertRefines | include/lib/dsa/deltaChain.h:52-80 | insertion into the chain is stable insertion into the plain list of expiry times: behind every tie, nobody else's expiry changed |
| DeltaSeq.TickRefines | include/lib/dsa/deltaChain.h:82-104 | decrementing one delta counts every expiry time down at once, stopping at zero |
| DeltaSeq.PopRefines | include/lib/dsa/deltaChain.h:124-145 | popping the front leaves every other expiry time alone, the front is due first, and the 32-bit addition cannot wrap |
| DeltaSeq.InsertLeft | include/lib/dsa/deltaChain.h:52-80 | by identity: the new entry has the time asked for, all others keep theirs and their stamps |
| DeltaSeq.PopExpiredLeft | include/lib/dsa/deltaChain.h:106-122 | the answer is empty exactly when nothing has expired |
| DeltaSeq.TickStamped | include/lib/dsa/deltaChain.h:165-169 | stamps survive a tick, the wrap of the epoch included, if and only if nothing had expired before it |
| DeltaSeq.TimeUntilIsLeft | include/lib/dsa/deltaChain.h:165-169 | the constant-time answer is the sum of the deltas whenever the stamps are right |
| DeltaChain.Dq.PushBack | include/lib/dsa/dq.h:53-65 | `next` and `prev` stay mutually inverse and the node is last |
| DeltaChain.Dq.PushFront | include/lib/dsa/dq.h:67-79 | `next` and `prev` stay mutually inverse and the node is first |
| DeltaChain.Dq.PopFront | include/lib/dsa/dq.h:81-100 | the front is unlinked and the rest untouched |
| DeltaChain.Dq.InsertPrev | include/lib/dsa/dq.h:123-144 | the node is linked exactly behind `prev`, or in front |
| DeltaChain.Dq.Dequeue | include/lib/dsa/dq.h:169-190 | a node anywhere in the list is unlinked and the rest keeps its order |
| DeltaChain.Chain.Insert | include/lib/dsa/deltaChain.h:52-80 | the walk over linked nodes computes the insertion on the chain's value, links intact, and right stamps stay right |
| DeltaChain.Chain.Tick | include/lib/dsa/deltaChain.h:82-104 | the heap tick is the tick of the value, the epoch moves on modulo 2^32, and right stamps stay right if and only if the front had not expired |
| DeltaChain.Chain.PopExpired | include/lib/dsa/deltaChain.h:106-122 | the front node is handed out exactly when it has expired, and right stamps stay right |
| DeltaChain.Chain.Pop | include/lib/dsa/deltaChain.h:124-145 | the heap pop is the pop of the value, and right stamps stay right |
| DeltaChain.Chain.TicksUntil | include/lib/dsa/deltaChain.h:165-169 | one subtraction gives the prefix sum as long as every tick has found the chain without expired nodes |
| Lists.Sq.PushBack | include/lib/dsa/sq.h:52-64 | the queue's links spell out the nodes with the new one last |
| Lists.Sq.PushFront | include/lib/dsa/sq.h:66-73 | the queue's links spell out the nodes with the new one first |
| Lists.Sq.PopFront | include/lib/dsa/sq.h:75-90 | first in, first out, and the popped node is free to be pushed again |
| Lists.Sq.Insert | include/lib/dsa/sq.h:92-110 | the node is linked exactly behind `prev`, or in front |
| Lists.Stackq.Push | include/lib/dsa/stackq.h:44-49 | the stack's links spell out the nodes with the new one on top |
| Lists.Stackq.Pop | include/lib/dsa/stackq.h:51-63 | last in, first out, and the popped node is free to be pushed on another stack |
| Turns.TakesTurns | src/workhorse/kSched/kSchedPolicy/kSchedRr.c:89-151 | round robin, on every run: while a ready thread waits, the threads dispatched at its priority are among those ready there before it was passed over, each at most once; so one priority runs in the order in which its threads became ready, and with `k` others ready a thread is among the next `k + 1` dispatched |
| Turns.TakesTurnsFromStart | src/workhorse/kSched/kSchedPolicy/kSchedRr.c:73-151 | the same from an empty processor through any plugins and any run up to the moment the counting starts |
| Turns.JoinsLast | src/plugin/kPlugin.c:60-69 | a thread that joins has everybody in its queue in front of it, and changes nothing for those that wait |
| Turns.FramesComeRound | src/workhorse/kSched/kSchedPolicy/kSchedCyclic.c:113-149 | cyclic, on every run: a ready thread is dispatched after fewer dispatches than there are frames |
| Timeslice.SliceCounts | src/workhorse/kSched/kSchedPolicy/kSchedRr.c:153-207 | until a thread is dispatched again its timeslice goes down by exactly the ticks it pays for |
| Timeslice.NotBeforeItsTime | src/workhorse/kSched/kSchedPolicy/kSchedRr.c:153-256 | before a dispatched thread has been charged for its whole timeslice a tick takes the processor from it only for a strictly higher priority or a used-up budget; under the cyclic policy only for the latter |
| Timeslice.AtItsTime | src/workhorse/kSched/kSchedPolicy/kSchedRr.c:209-256 | the tick that charges the last of the timeslice dispatches anew if a thread is ready that is no worse |
| Timeslice.StartsAnother | src/workhorse/kSched/kSchedPolicy/kSchedRr.c:240-256 | if nobody is dispatched at that tick the thread keeps the processor and starts another whole timeslice |
| Timeslice.OnlyForEarlier | src/workhorse/kSched/kSchedPolicy/kSchedEdf.c:270-315 | under EDF a tick takes the processor from a thread with budget left only for a strictly earlier deadline |
| RoundRobin.NextAnswers | src/workhorse/kSched/kSchedPolicy/kSchedRr.c:122-151 | the pop answers with a ready thread of the highest priority, or with idle exactly when nothing is ready |
| RoundRobin.ReplaceAnswers | src/workhorse/kSched/kSchedPolicy/kSchedRr.c:209-256 | the rescheduling test says yes exactly when a ready thread should take over: higher priority, equal with the timeslice up, or idle running for nothing |
| RoundRobin.PushAgrees | src/workhorse/kSched/kSchedPolicy/kSchedRr.c:89-120 | the queues follow the machine when a thread becomes ready again; `Turns.TakesTurns` says in which order they are served |
| RoundRobin.JoinAgrees | src/plugin/kPlugin.c:60-69 | a thread that joins is known to the policy with its priority and timeslice, and in its queue; `Turns.JoinsLast` says where |
| RoundRobin.Scheduler.Join | src/plugin/kPlugin.c:60-69 | a thread is refused exactly for a priority out of range or no timeslice; a refused one leaves nothing behind |
| RoundRobin.PopAgrees | src/workhorse/kSched/kSchedPolicy/kSchedRr.c:122-151 | the queues and timeslices follow the machine's dispatch |
| RoundRobin.RenewAgrees | src/workhorse/kSched/kSchedPolicy/kSchedRr.c:209-256 | a test that keeps the running thread leaves it the timeslice the machine gives it |
| RoundRobin.Scheduler.PushBack | src/workhorse/kSched/kSchedPolicy/kSchedRr.c:89-120 | the push of the specification, whose order `Turns.TakesTurns` is about, with the bit of a queue set exactly while it holds a thread |
| RoundRobin.Scheduler.PopFront | src/workhorse/kSched/kSchedPolicy/kSchedRr.c:122-151 | bitmap and queues together pop first-in first-out from the highest priority |
| RoundRobin.Scheduler.ShouldReschedule | src/workhorse/kSched/kSchedPolicy/kSchedRr.c:209-256 | the bitmap scan computes the test of the specification |
| Cyclic.SearchFinds | src/workhorse/kSched/kSchedPolicy/kSchedCyclic.c:127-141 | while a thread is ready the search comes to a frame with a ready owner, so the assertion behind it holds |
| Cyclic.Search | src/workhorse/kSched/kSchedPolicy/kSchedCyclic.c:127-141 | the frame found is the first, counted cyclically from the clock, whose owner is ready |
| Cyclic.FoundFrame | src/workhorse/kSched/kSchedPolicy/kSchedCyclic.c:127-147 | the frame taken is the lowest with a ready owner at the clock or above it, and the lowest of all when there is none there; the clock moves on to the frame behind it |
| Cyclic.NextAnswers | src/workhorse/kSched/kSchedPolicy/kSchedCyclic.c:113-149 | the pop answers with a ready thread, or with idle exactly when nothing is ready |
| Cyclic.ReplaceAnswers | src/workhorse/kSched/kSchedPolicy/kSchedCyclic.c:206-245 | the rescheduling test says yes exactly when the timeslice is up, or idle runs, and something is ready |
| Cyclic.CountAgrees | src/workhorse/kSched/kSchedPolicy/kSchedCyclic.c:69-111 | the ready count is the number of ready threads after a thread becomes ready again, and the frames stay one owner each |
| Cyclic.JoinAgrees | src/plugin/kPlugin.c:71-101 | a thread that joins is counted, owns its frames, and every frame still has one owner |
| Cyclic.Scheduler.Join | src/plugin/kPlugin.c:71-101 | a thread is accepted exactly when it has a timeslice and a frame and shares no frame with a thread of the processor; the bitmap of taken frames stays that of the accepted threads |
| Cyclic.TakeAgrees | src/workhorse/kSched/kSchedPolicy/kSchedCyclic.c:113-149 | the ready count is the number of ready threads after a pop and dispatch |
| Cyclic.Scheduler.Push | src/workhorse/kSched/kSchedPolicy/kSchedCyclic.c:69-111 | the first push fills in exactly the thread's own frames |
| Cyclic.Scheduler.Pop | src/workhorse/kSched/kSchedPolicy/kSchedCyclic.c:113-149 | the search loop computes the pop of the specification |
| Cyclic.Register | src/plugin/kPlugin.c:70-101 | a thread is accepted exactly when it has a frame and shares none with a thread accepted before; a refused one claims nothing |
| Edf.Restarted | src/workhorse/kSched/kSchedPolicy/kSchedEdf.c:68-89 | the loop that re-inserts expired threads terminates |
| Edf.FixedLeft | src/workhorse/kSched/kSchedPolicy/kSchedEdf.c:68-89 | after the fix-up every thread has the deadline it had, or a whole new one if that had passed |
| Edf.NextAnswers | src/workhorse/kSched/kSchedPolicy/kSchedEdf.c:157-170 | the pop answers with a ready thread of the earliest deadline, or with idle exactly when nothing is ready |
| Edf.FirstComeFirst | src/workhorse/kSched/kSchedPolicy/kSchedEdf.c:118-170 | first in, first out on ties: of the ready threads with the earliest deadline the pop answers with the one that entered the chain first |
| Edf.RestartedEntered | src/workhorse/kSched/kSchedPolicy/kSchedEdf.c:68-89 | what the fix-up does to that order: threads whose deadlines have passed enter again, after everything else and in the order of the chain, and all others keep their place |
| Edf.ReplaceAnswers | src/workhorse/kSched/kSchedPolicy/kSchedEdf.c:270-315 | the rescheduling test says yes exactly when a ready thread has a strictly earlier deadline, or idle runs and something is ready |
| Edf.DequeueAgrees | src/workhorse/kSched/kSchedPolicy/kSchedEdf.c:157-170 | the popped thread and every thread that stays keep the deadlines the machine gives them |
| Edf.EnqueueAgrees | src/workhorse/kSched/kSchedPolicy/kSchedEdf.c:118-155 | a thread that becomes ready again is queued with what it has left, or with a new deadline |
| Edf.JoinAgrees | src/plugin/kPlugin.c:103-112 | a thread that joins is in the chain with its first deadline |
| EdfChain.Scheduler.Join | src/plugin/kPlugin.c:103-112 | a thread is refused exactly for a virtual deadline of zero; a refused one leaves nothing behind, an accepted one has a node of its own in the chain |
| Edf.TickedAgrees | src/workhorse/kSched/kSchedPolicy/kSchedEdf.c:107-116 | the tick of the chain counts every ready thread's deadline down |
| Edf.ChargeAgrees | src/workhorse/kSched/kSchedPolicy/kSchedEdf.c:172-231 | a charge in the policy's node is the charge of the machine |
| Edf.FixupTwice | src/workhorse/kSched/kSchedPolicy/kSchedEdf.c:270-315 | a rescheduling point may start from the chain its test has already fixed up |
| EdfChain.Scheduler.TickTransition | src/workhorse/kSched/kSchedPolicy/kSchedEdf.c:107-116 | the tick of the linked chain is that of the policy's value |
| EdfChain.Scheduler.Push | src/workhorse/kSched/kSchedPolicy/kSchedEdf.c:118-155 | a thread's node goes back into the linked chain with the ticks it still holds, or with a new deadline, and nodes and threads stay one to one |
| EdfChain.Scheduler.FixupChain | src/workhorse/kSched/kSchedPolicy/kSchedEdf.c:68-89 | the loop over linked nodes terminates and computes the fix-up, threads re-entering in the order of the chain |
| EdfChain.Scheduler.Pop | src/workhorse/kSched/kSchedPolicy/kSchedEdf.c:157-170 | fix-up and heap pop answer with the thread of the specification, whose node keeps the ticks it has left outside the chain |
| EdfChain.Scheduler.TickCallback | src/workhorse/kSched/kSchedPolicy/kSchedEdf.c:172-231 | the callback's arithmetic on the delta of a node outside the chain is that of the machine, and its assertions hold |
| EdfChain.Scheduler.ShouldReschedule | src/workhorse/kSched/kSchedPolicy/kSchedEdf.c:270-315 | fix-up, peek at the front node and compare with the running thread's node compute the test of the specification |
| Bitmap.Set | include/lib/dsa/bitmap.h:34 | the bit is set and no other changes |
| Bitmap.Unset | include/lib/dsa/bitmap.h:35 | the bit is cleared and no other changes |
| Bitmap.Fls | include/lib/dsa/bitmap.h:42-61 | the answer is the highest set bit of the range, or -1 when there is none |
| Bitmap.Ffs | include/lib/dsa/bitmap.h:64-83 | the answer is the lowest set bit of the range, or -1 when there is none |
| Bitmap.IsEmpty | include/lib/dsa/bitmap.h:86-100 | the byte scan answers for every bit of every byte it covers |
| Mcs.MutualExclusion | include/lib/mcsLock.h:57-89 | for any number of processors and every interleaving of the atomic steps, trylock mixed in, at most one processor is between acquire and the end of release |
| Mcs.Fifo | include/lib/mcsLock.h:57-98 | the lock is entered in the order of the exchanges on `tail`, successful trylocks included |
| Mcs.Progress | include/lib/mcsLock.h:62-89 | in no reachable state is the tail taken with everybody waiting: the holder, or a step that does not wait, can always move |
| Mcs.TryReturns | include/lib/mcsLock.h:93-98 | a trylock returns in one step, inside if and only if the lock was free, and otherwise changes nothing |
| Mcs.NodeReleased | include/lib/mcsLock.h:71-89 | once a release has returned, no other processor reads or writes that node again until its owner starts anew |
| Mcs.StepInv | include/lib/mcsLock.h:57-98 | every atomic step keeps the queue that nodes, program counters and tail spell out |
| Bits.Fls32 | include/stdWorkhorse.h:93-126 | the halving finds the highest set bit of every word, -1 only for zero |
| Bits.Ffs32 | include/stdWorkhorse.h:129-160 | the halving finds the lowest set bit of every word, -1 only for zero |
| VectorMap.Scan | arch/x86_64/ia32e/src/ia32eEmulator.c:782-799 | the scan over eight words finds the highest vector, -1 only when there is none |
| X2apic.Lapic.OnePerClass | arch/x86_64/ia32e/src/ia32eEmulator.c:828-840 | at most one vector of each priority class is in service, and none of class zero |
| X2apic.Lapic.GetPpr | arch/x86_64/ia32e/src/ia32eEmulator.c:843-846 | the processor priority is the greater of the task priority and the class of the vector on top of the service stack |
| X2apic.Lapic.UnsetIsrv | arch/x86_64/ia32e/src/ia32eEmulator.c:802-825 | the highest bit of the ISR is the most recently injected vector in service: the stack is popped |
| X2apic.Lapic.WriteEoi | arch/x86_64/ia32e/src/ia32eEmulator.c:2142-2152 | an EOI ends exactly the most recently injected vector in service, only if the value is zero and the APIC enabled |
| X2apic.Lapic.GetIrrPending | arch/x86_64/ia32e/src/ia32eEmulator.c:849-869 | the highest requested vector, none exactly when disabled or empty |
| X2apic.Lapic.CheckLatchedIrr | arch/x86_64/ia32e/src/ia32eEmulator.c:1288-1324 | every latched vector becomes requested, no other, and the latch is empty |
| X2apic.Lapic.InjectExternal | arch/x86_64/ia32e/src/ia32eEmulator.c:3115-3137 | injecting the highest request pushes it on the service stack; nothing requested can then be above the processor priority |
| X2apic.Lapic.Inject | arch/x86_64/ia32e/src/ia32eEmulator.c:3090-3153 | what is injected, if and only if which conditions hold; an external vector is the maximum of the IRR and above the processor priority; and the window exits are armed exactly when an NMI, or an interrupt that beats the updated priority, is still pending |
| X2apic.Lapic.Entry | arch/x86_64/ia32e/src/ia32eEmulator.c:3081-3153 | steps 4 to 7 as one: everything latched, handed over by the plugin or requested before is either injected now or still requested, what other vCPUs send meanwhile stays latched, and an external vector is injected if and only if one of them beats the processor priority and the guest is open to it, the highest first |
| X2apic.Lapic.Accept | arch/x86_64/ia32e/src/ia32eEmulator.c:1099-1150 | a packet changes the receiver's latch and latched vectors as the protocol says and nothing else |
| X2apic.AllLatched | arch/x86_64/ia32e/src/ia32eEmulator.c:1099-1150 | of a sequence of packets an enabled APIC latches every fixed vector above 15 and no other, and any APIC every NMI |
| X2apic.Lapic.Reset | arch/x86_64/ia32e/src/ia32eEmulator.c:2719-2748 | after a reset nothing is requested or in service, the task priority, the ICR and the error flags are clear, and the APIC is disabled; the latch is kept |
| Startup.LaunchIsCalledFor | arch/x86_64/ia32e/src/ia32eEmulator.c:3022-3079 | under every interleaving of arriving packets with the receiver's lock sections: a launch has an INIT that no later one replaced and no launch used, followed by a SIPI, and happens at the vector of the first SIPI since that INIT |
| Startup.SipiIgnored | arch/x86_64/ia32e/src/ia32eEmulator.c:1135-1145 | a SIPI changes nothing if and only if no INIT is outstanding, or an earlier SIPI has answered it |
| Startup.StartupSucceeds | arch/x86_64/ia32e/src/ia32eEmulator.c:3022-3079 | once INIT and SIPI have arrived the receiver's own next checks launch it, whatever it was doing |
| Startup.GuestWasLaunched | arch/x86_64/ia32e/src/ia32eEmulator.c:3022-3079 | a vCPU other than the bootstrap processor is in its guest only after a launch |
| Startup.NmiPending | arch/x86_64/ia32e/src/ia32eEmulator.c:1099-1132 | on every run an NMI is pending if and only if one has arrived that no INIT taken since has dropped |
| Startup.StandingMeans | arch/x86_64/ia32e/src/ia32eEmulator.c:1124-1145 | what a run's packets amount to, told by position: the outstanding INIT and the first SIPI after it |
| Ipi.LdrMatches | arch/x86_64/ia32e/src/ia32eEmulator.c:1938-1941 | same cluster and a common bit, as the logical destination register defines them, is cluster number and bit of the id |
| Ipi.Bus.constructor | arch/x86_64/ia32e/src/ia32eCpuVtx.c:223-239 | a domain of any size the source allows has a bus of that many distinct APICs, each as after a power-up, with which everything below holds |
| Ipi.Bus.SendPacket | arch/x86_64/ia32e/src/ia32eEmulator.c:1069-1153 | one packet to the vCPU if the domain has it, none otherwise; both error flags exactly when the vector is illegal and the APICs are enabled as required, so a fixed vector sent to an enabled APIC is latched or reported |
| Ipi.Bus.SendLogical | arch/x86_64/ia32e/src/ia32eEmulator.c:1202-1217 | exactly one packet to each vCPU whose logical destination register matches, none to any other |
| Ipi.Bus.ScanCluster | arch/x86_64/ia32e/src/ia32eEmulator.c:1208-1217 | the bit-clearing loop terminates, every logical id fits eight bits, and the cluster's set bits below the domain's size are served in order |
| Ipi.PacketEffect | arch/x86_64/ia32e/src/ia32eEmulator.c:1096-1153 | what each delivery mode of the command register does to a vCPU, by the value of the field: the vector latched, an NMI pending, an INIT outstanding and a pending SIPI discarded, or the start-up vector taken if the latch waits |
| Ipi.Bus.WriteIcr | arch/x86_64/ia32e/src/ia32eEmulator.c:1156-1252 | which values are accepted and stored, by field; for each shorthand and destination exactly the vCPUs it names see the effect of the delivery mode on their latch and latched vectors, once each, and no other vCPU sees anything; a rejected value changes nothing, and an SMI sends nothing |
| Tpr.Cpu.Reload | arch/x86_64/ia32e/src/ia32eCpu.c:127-146 | the register becomes the greater of 1 and the highest level among the activated tasks |
| Tpr.Cpu.Activation | arch/x86_64/ia32e/src/ia32eCpu.c:1226-1269 | the cached register stays exact when a task is activated, reloaded only once the plugins are done and the level is higher |
| Tpr.Cpu.Response | arch/x86_64/ia32e/src/ia32eCpu.c:1271-1312 | the cached register stays exact when a task responds, reloaded only when the last of the top level goes; once the processor has been handed over both assertions hold by themselves |
| Tpr.Cpu.StateChange | src/workhorse/kTick/kTick.c:258-278 | the callbacks of a change of state keep the register exact and the set of activated tasks right |
| Tpr.Cpu.FollowRun | src/workhorse/kTick/kTick.c:258-278 | over every run of the machine, whatever changes of state its events are made of: the register ends up as the greater of 1 and the highest level among the tasks that are not asleep, throttled, dormant or failed at the end |
| Tpr.TprIsRight | arch/x86_64/ia32e/src/ia32eCpu.c:127-146 | the register is one that a sleeping, throttled, dormant or failed task never raises and every other task does |
| Tpr.MadeOf | src/workhorse/kTick/kTick.c:258-278 | every run is made of such changes, so that claim is about every run |
| LsrOrder.RegisterDecides | arch/x86_64/ia32e/src/ia32eCpu.c:1545-1581 | an interrupt is let through exactly when it is above the register that the callbacks keep |
| LsrOrder.AlwaysOrdered | arch/x86_64/ia32e/src/ia32eCpu.c:1545-1581 | on every run in which interrupts come in only above the register, pending LSRs stay sorted by priority and the running LSR is at least as high as everything that waits |
| LsrOrder.PutAsideOrdered | src/workhorse/kTick/kTick.c:586-605 | the interrupted task joins the stack above everything already waiting and below the interrupt's LSRs |
| Invocation.RoundTrip | src/workhorse/kSyscall/kSyscall.c:36-87 | a call or an exception, any well-nested run of what it enters, and the return: the caller is back in its domain with its stack and continues where it called from, unless its exception handler set another address |
| Invocation.BelowUntouched | src/workhorse/kDomainUniverse/kDomainUniverse.c:66-174 | a run above an entry leaves every entry below it untouched, and of that one changes at most the return address, to what was last set from directly above it |
| Invocation.IpcAddressKept | src/workhorse/kSyscall/kSyscall.c:215-225 | only an exception handler can change a return address |
| Invocation.StepSound | src/workhorse/kDomainUniverse/kDomainUniverse.c:58-143 | every adjacent pair on the stack is an exception taken in place or a permitted IPC through a valid entry, and the depth stays within the bound |
| Invocation.CallsArePermitted | src/workhorse/kDomainUniverse/kDomainUniverse.c:58-64 | in every state of every run each IPC on the stack went from a domain that has the bit of the one above it in its own map to one that takes IPC; everything else is an exception taken in place |
| Invocation.EntersAt | src/workhorse/kDomainUniverse/kDomainUniverse.c:84-143 | a call or exception that is carried out enters the right domain at the entry point registered for it, and records what it was |
| Invocation.After | src/workhorse/kDomainUniverse/kDomainUniverse.c:58-174 | the same over every run of operations |
| Invocation.RefusedChangesNothing | src/workhorse/kDomainUniverse/kDomainUniverse.c:83-115 | which operations are refused, in terms of the caller's own map, the entry points and the depth, with which error, and that a refused one changes nothing |
| Invocation.Task.PushEntry | src/workhorse/kDomainUniverse/kDomainUniverse.c:66-143 | the array push is the push on the stack's value, with the same error |
| Invocation.Task.PopEntry | src/workhorse/kDomainUniverse/kDomainUniverse.c:145-174 | the array pop is the pop on the stack's value |
| Invocation.Task.DoIpc | src/workhorse/kSyscall/kSyscall.c:60-87 | authentication, push and the new program counter are one step of the specification; it succeeds if and only if the callee exists, its bit is set in the caller's own map, it takes IPC and the stack has room |
| Invocation.Task.DoReturn | src/workhorse/kSyscall/kSyscall.c:36-56 | pop and the restored program counter are one step of the specification |
| Invocation.Task.SetReturnAddress | src/workhorse/kSyscall/kSyscall.c:215-225 | only the newest entry's return address changes, and only if it is not an IPC |
| Invocation.Task.HandleException | src/import/kExceptionHandler.c:32-51 | the task fails exactly when the exception is fatal or its push is refused, and then nothing else changes |

## Left out

- The intrusive nodes inside task control blocks: the tick machine keeps its chains and stacks as value sequences; that linked nodes implement chains, queues and stacks is proved in DeltaChain and Lists, and aliasing between a task's several nodes is not modelled.
- Dq operations the delta chain does not use (`dqPopBack`, `dqInsertNext`) mirror the ones modelled.
- The `idleWindowEpoch` and `largestWindowEpoch` instrumentation of idle tasks and LSRs.
- Plugin callbacks and emulator callbacks: foreign code, taken to leave kernel state alone.
- Context switches, address-space switches and timer hardware: a tick is an event, its source and accuracy are not modelled.
- What makes a domain or processor number valid, and which parameters an architecture takes: two Booleans of `AddThread` and `AddLsr`.
- TickMachine.TickMachine.ReschedulingPoint: the policy inside the class answers anything the contract allows; that the three policies' data structures answer within it on every run is proved on the transition system (`Coupled.PoliciesKeepContract`), not by putting their code into this class.
- Round robin keeps its queues as values; that linked nodes implement a queue is proved in Lists. EDF runs on linked nodes.
- Cyclic.Search: takes the states of all tasks as a parameter, where the source follows pointers from frames to tasks.
- Startup.StartupSucceeds: waiting for power and for a SIPI are polling loops; the model has one step per poll and does not say that a poll happens.
- Local interrupts of the APIC (timer, error, LINT), its error status register beyond the two flags, level-triggered interrupts, and IPIs across domains (`ia32eEmulatorIpiRouter`).
- Ipi.Bus.WriteIcr: physical broadcast destinations name no vCPU here, as in the code.
- X2apic.Lapic.Entry: events the event manager re-injects or queues in its step 5 are one flag and at most one external interrupt; the wait for a SIPI in step 3 is in Startup.
- X2apic.Lapic.Reset: the local vector table, the timer registers and the APIC base it also sets are not modelled.
- Read-only invocation controls (depth left, invoking domain, type, addresses).
- Boot, page tables, descriptor tables, ACPI, console, VMX field access and MSR emulation.
