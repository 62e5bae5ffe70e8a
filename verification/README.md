# What is proved about cimba

This project models the parts of cimba whose correctness rests on an argument
rather than on a glance at the code, and proves the argument: the resource
protocol with its waits, preemption and changing capacity; the late freeing of
spawned processes; input streams and the exact re-execution of trials that run
out of rows; and four self-contained algorithms.

`dafny verify dfyconfig.toml` checks everything.

## Layout

| files | what they model |
|---|---|
| `HashHeap`, `WaitKeys` | the engine's keyed priority heap as `resource.c` uses it, and the 64-bit wait keys |
| `ResourceModel` | `resource.c` as a state machine: pools, processes, queues, pending wakeups, and one step per run from yield to yield |
| `ResourceInvariant`, `ResourceSteps`, `ResourceRuns` | the invariant, and that every verb, resumption and event keeps it |
| `ResourceTheorems`, `ResourceGrants`, `ResourceStops`, `ResourceProgress` | the theorems over all runs: conservation, all or nothing, one or nothing, queue places, no lost grant, capacity |
| `ResourceKeys` | the keys of pending grants: every wait has its own, until a request's episodes run out |
| `ResourceRanks` | requests and holdings without a rank follow the priority, and when they do not |
| `ResourceLoops` | the two loops that throw holders out one by one equal the closed forms of the model; victim order |
| `ResourceService` | exactly when a step gives a process units, and whom it throws out or overtakes for them |
| `ResourceExamples` | concrete runs in which a documented promise fails |
| `Simulation` | the same verbs on objects changed in place, with the loops of the code; each method equals its step function |
| `RetiredRing`, `Retirement`, `SpawnedLives`, `SpawnedProcesses` | the ring of retired processes, the life of spawned processes as a state machine, what becomes of each process and its events, and the in-place form |
| `SpawnedIndex` | the open-addressing index over spawned models |
| `Powers`, `Streams`, `Generators`, `InputSlots` | seeding and stepping in 64-bit arithmetic, and reading a slot by value or as a series |
| `Extension`, `SlotReads`, `Batch`, `Bootstrap`, `RowCache` | re-execution with longer rows, why a slot replies as it assumes, the batch's dictionaries, the prefix-ordered generators, the row cache |
| `TopologicalOrder`, `SlotTables`, `Variants` | Kahn's algorithm, dispatch slots under inheritance, splitting and merging runs |

## How to read the resource model

A `World` is everything a trial's resources can see: for each pool its
capacity, use, holders and waiting queue; for each process its priority, tags
and, if it waits inside a call, the call's frame; and the pending wakeups of
the current instant. A `Step` runs one process, or one event, from a yield to
the next yield. Any interleaving of enabled steps is a `Run`. Theorems named
below quantify over every run, every number of pools and processes, and every
interference.

`Inv` ties it together. In each pool the units in use are the units held, and
holdings are positive and unique. Each queue entry belongs to a process that
waits there, at its own place and rank. A waiting acquire holds what it began
with plus what it has taken, ranked as its request. An `acquire_any` is queued
in every member, or in none with one grant or one notice pending.

Assumptions on the parts that are not modelled, all visible in `Enabled`,
`SignalGuard`, `Evict` and `Awaken`:

- A guard's signal looks at the front waiter only; if the demand function
  accepts, the waiter is dequeued everywhere and a wakeup is scheduled at the
  same instant. A grant for another wait is discarded by its key.
- An interrupt, preemption or stop takes the process off every queue.
- A waiting acquire or preempt that was thrown out of the very pool it waits
  for, and so has lost its claim, ends with that preemption, or with any
  interruption if it began with nothing there (`MayResume`): the rollback at
  `resource.c:515-517` needs the holding. In all other cases a wait may end
  with any signal, also after its process was thrown out of another pool.
- A thread makes fewer than 2^43 - 1 requests, so sequence numbers do not wrap.
- A process calls a verb only while it is alive and not waiting.

## Where the code and its documentation differ

The model follows the code in each case.

- `docs/concepts/entities.rst:184-187` says that a later request of equal
  priority is never served before an earlier one. A process that calls
  `acquire` between a grant and the wakeup takes the unit
  (`ResourceExamples.NewcomerOvertakes`). Exactly when a request overtakes one
  that waits is `ResourceService.OvertakesIff`: a unit is free as its pass
  starts, or it may preempt and those below its rank hold enough. What always
  holds is the order of the queue: `QueueOrder` and `KeepsItsPlace`.
- `docs/concepts/entities.rst:196-198` says that `priority_set` re-ranks a
  request and its holding. If the call is interrupted afterwards, the rollback
  restores the rank from before (`ResourceExamples.RollbackRestoresStaleRank`).
  `ResourceRanks.TracksStep`: of all steps, exactly such a rollback breaks it.
- `docs/concepts/entities.rst:227-230` says that a preempting `set_capacity`
  brings the units in use to at most `n`. It does so exactly if there is no
  caller or the caller's own units are at most `n`
  (`ResourceRuns.SetCapacityKeeps`, `ResourceExamples.CallerStaysAbove`); and
  if `n` is already the capacity it returns at once and throws nobody out
  (`ResourceExamples.SameCapacityStaysAbove`).
- `resource.c:24-26` says that every wait gets a fresh key, so that a stale
  grant is discarded. `next_wait_key` stops counting at the last of a request's
  2^20 episodes, and a wait that begins there reuses the key
  (`ResourceExamples.KeyIsReusedAtLast`). `ResourceKeys.NewWaitIsExact` says
  exactly when a pending grant has the key of a new wait.
- A rollback of a call that began with nothing held gives units back without
  a signal (`resource.c:522-526`), so a waiter that would fit is not woken
  (`ResourceExamples.QuietRollbackLosesGrant`). `LosesGrant` names, for every
  step exactly, when room goes unnoticed: after this rollback; after an
  `acquire_any` that is cancelled with a grant pending, or that is resumed with
  success after it was thrown out and takes a unit of another member; and after
  a process is stopped on its way to a pool.
- `snapshot.py:572-575` says that extending every row of a point leaves the
  other inputs as they were. This is so exactly for the settings that
  `Extension.Transparent` describes: a generated row source that wraps, fails
  or ends the trial at its end can notice that it got longer
  (`Extension.ExtensionShows`). Traces and other bound rows never grow.

## Model

| member | source | states |
|---|---|---|
| HashHeap.HeapIsItsMap | src/cimba/native/resource.c:231-236 | the holders heap is determined by what it finds: two heaps in holder order that find the same holdings list them in the same order |
| HashHeap.PutOk | src/cimba/native/resource.c:231-236 | enqueueing or re-ranking an entry in an ordered heap with unique keys leaves one |
| HashHeap.PutInOrder | src/cimba/native/resource.c:231-236 | of two entries the one ahead has, among holders, the lower rank, or the same and the later grant, or both the same and the higher key; and among waiters the higher rank, or the same and the earlier wait, or both the same and the lower key |
| HashHeap.FindPut | src/cimba/native/resource.c:385-400 | after an entry is put, its key finds it and every other key finds what it found before |
| WaitKeys.NextPlaceInRange | src/cimba/native/resource.c:327-340 | sequence numbers stay in 43 bits and are never 0, episodes stay in 20 bits, and every wait key is a 64-bit word with the top bit set |
| WaitKeys.NumbersGoRound | src/cimba/native/resource.c:329-335 | requests are numbered 1 to 2^43 - 1 in turn and then from 1 again, and a first wait has the new number, the present time and episode 0 |
| WaitKeys.FreshUnlessSaturated | src/cimba/native/resource.c:336-338 | a later wait of a request has a later key, exactly while episodes are left |
| WaitKeys.KeyOrder | src/cimba/native/resource.c:327-340 | keys order as (sequence, episode), and equal keys mean equal sequence and episode |
| WaitKeys.KeyWordFields | src/cimba/native/resource.c:339 | the shifted and or-ed word is the sum of its fields, and both fields can be read back |
| ResourceLoops.PreemptTurns | src/cimba/native/resource.c:482-504 | one turn of the preempting loop (throw out the front holder, take what is needed of the room) and then preempting for the rest is preempting for all: victims first, then one share |
| ResourceLoops.TurnShrinks | src/cimba/native/resource.c:482-504 | each turn leaves one holder fewer beside the caller, so the loop ends |
| ResourceLoops.TurnVictim | src/cimba/native/resource.c:455-459 | the front holder below the request's rank is never the caller, since inside a call its holding ranks as the request |
| ResourceLoops.PreemptionOrder | src/cimba/native/resource.c:482-504 | the victims are a minimal prefix of holder order, all strictly below the rank, never the caller; each has a lower rank than every other holder who stays, or the same and a later grant, or both the same and a higher handle; all others keep their holdings; the caller gets all it needs of what they free, and gets less only if no holder below the rank is left |
| ResourceLoops.ShedTurn | src/cimba/native/resource.c:635-648 | throwing out the front holder while the caller's holding is set aside does the next turn of shedding with it put back |
| ResourceLoops.SetAside | src/cimba/native/resource.c:637-646 | putting the caller's holding back restores the heap as it was |
| ResourceLoops.ShedTurns | src/cimba/native/resource.c:635-648 | throwing out the front holder other than the caller, and then shedding, is shedding |
| ResourceLoops.SheddingOrder | src/cimba/native/resource.c:625-653 | a preempting set_capacity throws out the front holders other than the caller: lowest rank first, of equal ranks the latest grant, then the highest handle; all of them needed, and enough unless no other is left; all others keep their holdings |
| ResourceSteps.VictimsAreMinimal | src/cimba/native/resource.c:483-484 | the count of victims is the least that covers the need among the front holders below the rank |
| ResourceSteps.PreemptKeeps | src/cimba/native/resource.c:482-504 | preempting keeps the invariant, changes no other holding of the caller, adds exactly what it returns to its holding here, and leaves no room if the claim is not met |
| ResourceSteps.AttemptKeeps | src/cimba/native/resource.c:465-511 | one pass of the acquire loop either ends with the whole claim held or waits again at the first wait's place with no room left and the claim so far in the holding |
| ResourceSteps.RollbackKeeps | src/cimba/native/resource.c:517-529 | an interrupted call leaves exactly the holding it began with: amount, rank, tracking flag and grant time |
| ResourceSteps.ResumeTakeKeeps | src/cimba/native/resource.c:354-367 | a resumed acquire or preempt keeps the invariant, and does with each signal what the call promises |
| ResourceSteps.TakeOneKeeps | src/cimba/native/resource.c:736-757 | taking one unit of a member adds exactly one unit there, nothing elsewhere, and leaves a tag just where units are held |
| ResourceSteps.AttemptAnyKeeps | src/cimba/native/resource.c:771-793 | a pass of acquire_any takes one unit of the first listed member with room, or waits in every member when none has room |
| ResourceSteps.ResumeAnyKeeps | src/cimba/native/resource.c:796-823 | a resumed acquire_any keeps the invariant, and takes one unit, waits again at its place, or returns the signal with its holdings unchanged |
| ResourceRuns.ReleaseKeeps | src/cimba/native/resource.c:577-598 | release gives back exactly the amount, or fails the trial and changes nothing when the amount is not positive or exceeds what is held |
| ResourceRuns.ShedIsMinimal | src/cimba/native/resource.c:635-648 | no fewer of the front holders would free what a lowered capacity needs |
| ResourceRuns.ShedKeeps | src/cimba/native/resource.c:625-653 | shedding ends with the use within the capacity or with only the caller's holding left, unchanged, and so within it exactly if the caller's own units are |
| ResourceRuns.SetCapacityKeeps | src/cimba/native/resource.c:607-660 | set_capacity sets the capacity and never raises the use; when it changes the capacity and preempts, the use ends within it exactly if there is no caller or the caller holds no more; otherwise the use and all holdings stay |
| ResourceRuns.StopKeeps | src/cimba/native/resource.c:177-192 | a process that ends is off every queue and holds nothing anywhere, and the invariant is kept |
| ResourceRuns.SetPriorityEffect | src/cimba/native/resource.c:199-221 | priority_set moves exactly the tracking holdings of the process and its rank-less waiting entries; explicitly ranked ones keep their rank |
| ResourceTheorems.StepKeeps | src/cimba/native/resource.c:439-531 | every step of any process or event keeps the invariant and leaves every other process's call and place alone, and its holdings unless it is thrown out |
| ResourceTheorems.RunKeeps | src/cimba/native/resource.c:439-531 | the invariant holds in every reachable state |
| ResourceTheorems.Conservation | src/cimba/native/resource.c:385-433 | in every reachable state the use equals the sum of the holdings, each process has at most one positive holding, the use is within the largest capacity so far, and outside a call a tag is carried exactly where units are held |
| ResourceTheorems.AllOrNothing | src/cimba/native/resource.c:439-531 | over any number of waits and any interference: success leaves what was held plus what was asked for; an interruption leaves the holding it began with; a preemption leaves nothing if the process was thrown out here, and otherwise what was held plus what was taken so far |
| ResourceTheorems.OneOrNothing | src/cimba/native/resource.c:759-825 | acquire_any returns an index after taking exactly one unit of that member, by its first listing, or a signal after taking none; no unit is added while it waits, and no queue entry is left |
| ResourceTheorems.QueueOrder | src/cimba/native/resource.c:342-349 | in every reachable queue the request ahead has the higher rank, or at equal rank first waited earlier |
| ResourceTheorems.KeepsItsPlace | src/cimba/native/resource.c:327-340 | through every later wait of a call its sequence number and entry time are those of its first wait |
| ResourceKeys.WaitIsAtomic | src/cimba/native/resource.c:709-733 | in every reachable state a waiting call is queued under its one key in exactly its members, or in no queue with one grant, by the first listing, or one notice pending; while its request has episodes left no grant with its key is pending in the first case, and exactly that one in the second |
| ResourceKeys.LiveGrantIsOfThisWait | src/cimba/native/resource.c:24-28 | while its request has episodes left, a process takes up no grant but that of its present wait |
| ResourceKeys.StepKeyed | src/cimba/native/resource.c:327-340 | every step keeps the keys of pending grants those of requests made and of waits not later than the present one |
| ResourceKeys.NewWaitIsExact | src/cimba/native/resource.c:336-338 | in every run a new wait has no grant with its key pending, exactly unless its request has no episode left and a grant of the wait before stays pending |
| ResourceRanks.TracksStep | src/cimba/native/resource.c:199-221 | every step keeps the holdings of a process that have no rank of their own at its priority, exactly unless it rolls back a call that began with one at a rank the priority has left |
| ResourceRanks.RanksFollowPriority | src/cimba/native/resource.c:199-221 | and so in every run without such a step, and in every run a waiting request is queued at its own rank, or at the priority |
| ResourceService.AttemptServes | src/cimba/native/resource.c:465-511 | one pass takes what is free, then throws out the front of the other holders, each strictly below the rank, needed, and to go before all who stay by rank, then latest grant, then highest handle; and takes all it needs of what they free; all others keep their holdings |
| ResourceService.PreemptsInOrder | src/cimba/native/resource.c:482-504 | the same for every pass of every run, first or after a wait, with the rank at that moment |
| ResourceService.ServedIff | src/cimba/native/resource.c:465-511 | exactly when a step gives a process units: a pass that finds a unit free, or may preempt and finds enough held below its rank, or takes one of a member of acquire_any |
| ResourceService.OvertakesIff | src/cimba/native/resource.c:466-473 | exactly when a process gets units in a run past another that waits for them, queued or granted, at no lower rank |
| ResourceGrants.ResumeTakeFlow | src/cimba/native/resource.c:507-530 | a resumed acquire leaves its pool noticed, if it was, exactly when the step is not one that loses a grant |
| ResourceGrants.ResumeAnyFlow | src/cimba/native/resource.c:807-815 | the same for every member of a resumed acquire_any |
| ResourceStops.StopLeaves | src/cimba/native/resource.c:177-192 | whom the units that a stopped process gives back wake, pool by pool, and who is left in a queue it was on its way to |
| ResourceStops.StopFlow | src/cimba/native/resource.c:177-192 | stopping a process loses a grant of a pool exactly if it alone was on its way there, held nothing of it, there is room, and what it gives back elsewhere does not wake all who queue |
| ResourceProgress.StepIsHeeded | src/cimba/native/resource.c:358-366 | no step raises the use above the capacity; every step keeps each pool noticed, exactly unless it is one that loses a grant there |
| ResourceProgress.NoLostGrant | src/cimba/native/resource.c:342-368 | in every run without a losing step, whenever a pool has room and a queue, some process has an unused grant or an epilogue that will signal again, and its wakeup is pending |
| ResourceProgress.WithinSomeCapacity | src/cimba/native/resource.c:117-120 | in every reachable state the use fits a capacity the pool has or had |
| ResourceExamples.QuietRollbackLosesGrant | src/cimba/native/resource.c:522-526 | a run in which the rollback of a call that began with nothing leaves room and a waiter, and nobody on the way to it |
| ResourceExamples.NewcomerOvertakes | src/cimba/native/resource.c:466-473 | a run in which a later request takes the unit that an earlier one of equal rank has been granted |
| ResourceExamples.KeyIsReusedAtLast | src/cimba/native/resource.c:336-338 | a run in which a request waits again in its last episode, and a grant of the wait before is live |
| ResourceExamples.CallerStaysAbove | src/cimba/native/resource.c:628-646 | a run in which a preempting set_capacity ends above the new capacity with what its caller holds |
| ResourceExamples.SameCapacityStaysAbove | src/cimba/native/resource.c:618 | a run in which a preempting set_capacity to the present capacity leaves more in use |
| ResourceExamples.RollbackRestoresStaleRank | src/cimba/native/resource.c:517-521 | a run in which a holding that follows the priority ends with a rank other than the priority |
| Simulation.Trial.GrantHook | src/cimba/native/resource.c:709-733 | in place: the winner is the first listing of the granting member, and the entry leaves every other distinct member's queue and nothing else changes |
| Simulation.Trial.Signal | src/cimba/native/resource.c:311-318 | in place: a signal is the model's guard step |
| Simulation.Trial.PreemptFront | src/cimba/native/resource.c:418-433 | in place: the front holder loses its holding, tag and waits, and gets its notice |
| Simulation.Trial.NextWaitKey | src/cimba/native/resource.c:327-340 | in place: the place, the counter and the key of the next wait |
| Simulation.Trial.Preempt | src/cimba/native/resource.c:482-504 | the loop in place ends and computes the closed form, for any claim |
| Simulation.Trial.Acquire | src/cimba/native/resource.c:439-474 | in place: acquire and preempt are the model's step, and keep the invariant |
| Simulation.Trial.AcquireAny | src/cimba/native/resource.c:759-794 | in place: acquire_any up to its first yield is the model's step, and keeps the invariant |
| Simulation.Trial.Deliver | src/cimba/native/resource.c:796-825 | in place: delivering a grant or a notice is the model's step, with a stale grant discarded, and keeps the invariant |
| Simulation.Trial.TimeOut | src/cimba/native/resource.c:354-367 | in place: a timer or a bare resume that ends a wait is the model's step, and keeps the invariant |
| Simulation.Trial.Release | src/cimba/native/resource.c:577-598 | in place: release is the model's step, and keeps the invariant |
| Simulation.Trial.Shed | src/cimba/native/resource.c:625-653 | the loop that sets the caller's holding aside throws out exactly the model's victims |
| Simulation.Trial.ChangeCapacity | src/cimba/native/resource.c:607-660 | in place: set_capacity is the model's step, and keeps the invariant |
| Simulation.Trial.ChangePriority | src/cimba/native/resource.c:199-221 | in place: priority_set is the model's step, and keeps the invariant |
| Simulation.Trial.Stop | src/cimba/native/resource.c:177-192 | in place: ending a process is the model's step, and keeps the invariant |
| RetiredRing.ExpiredAreTheOlder | src/cimba/native/trial.c:194-204 | in a ring of nondecreasing times, stopping at the first entry that is not older takes off exactly the older ones |
| RetiredRing.Ring.Keep | src/cimba/native/trial.c:206-225 | the ring with wraparound and doubling appends to a first-in first-out sequence |
| RetiredRing.Ring.FreeBefore | src/cimba/native/trial.c:194-204 | it frees, oldest first, the front entries up to the first that is not older, and keeps the rest |
| Retirement.ExitSkipsNothing | src/cimba/native/trial.c:257-263 | a process that exits without the sweep has no pending signal or timer: both exits give the same state |
| Retirement.StepKeeps | src/cimba/native/trial.c:151-172 | every step of dispatcher, model code, exit and release keeps the invariant over clock, events, structs and ring |
| Retirement.SameRuns | src/cimba/native/trial.c:151-172 | the runs that skip the sweeps are exactly the runs that make them, state by state |
| Retirement.NoEventReachesAFreedStruct | src/cimba/native/trial.c:160-165 | in every reachable state no pending event names a freed struct, one that names a retired struct is due at the time it retired, and a retirement event never finds its process running |
| Retirement.OnePlace | src/cimba/native/trial.c:237-251 | in every reachable state each spawned process is in its slot, in exactly one ring entry, or freed, and has been destroyed just when it is freed |
| Retirement.DestroyedOnce | src/cimba/native/trial.c:555-571 | at the end of the trial every spawned process has been destroyed exactly once, however often releases and exits scheduled its retirement |
| SpawnedLives.RunBecomes | src/cimba/native/trial.c:145-273 | in every run, a process starts exactly when its start event runs, ends exactly when it returns, is stopped or is released, and is then on no list; it enters the ring exactly when its retirement runs, and is freed exactly when one runs at a later time |
| SpawnedLives.RunQueue | src/cimba/native/trial.c:496-552 | in every run, which events each step takes off the queue and which it puts on, each once and under a new handle; only the dispatcher moves the time, to its event's, and only interrupts are noted |
| SpawnedLives.EachIsStarted | src/cimba/native/trial.c:145-149 | in every such run a process in its slot that has not run has exactly one pending start now, or a pending retirement and no start |
| SpawnedLives.EachIsRetired | src/cimba/native/trial.c:265-273 | in every run in which nobody clears the event queue, a process that has ended and is in its slot has a pending retirement now, unless it was stopped from outside |
| SpawnedLives.RetirementClearsRing | src/cimba/native/trial.c:237-251 | in every run, a retirement leaves nothing older in the ring: the entries of its own time stay in order and the retired process comes last |
| SpawnedProcesses.Trial.EndProcess | src/cimba/native/trial.c:257-272 | in place: the choice of exit is the model's |
| SpawnedProcesses.Trial.RetireSpawned | src/cimba/native/trial.c:237-251 | in place: retirement does nothing to an emptied slot, else frees the older structs and moves this one to the ring |
| SpawnedProcesses.Trial.Spawn | src/cimba/native/trial.c:450-467 | the copies are new processes at the end, each initialized and in its slot, with exactly one new event that starts it now under a new handle; all other events and processes stay |
| SpawnedProcesses.Trial.ReleaseModel | src/cimba/native/trial.c:537-552 | in place: the loop over a released model's processes, and the caller's own exit |
| SpawnedProcesses.Trial.EndNormally | src/cimba/native/trial.c:555-571 | in place: the slots and then the ring are emptied as the model says |
| SpawnedIndex.PlaceKeeps | src/cimba/native/trial.c:304-308 | the first free slot on a node's probe path may take it: all nodes stay reachable and records distinct |
| SpawnedIndex.NotBeyondFree | src/cimba/native/trial.c:316-321 | a free slot on the probe path means that no node has the record |
| SpawnedIndex.HomeOfOne | src/cimba/native/trial.c:279-283 | where one record belongs, computed by hand: a sixteenth of its address times the golden constant, modulo 2^64 and the capacity |
| SpawnedIndex.PowersAreThese | src/cimba/native/trial.c:288-289 | the capacities the index admits are the powers of two |
| SpawnedIndex.MaskWraps | src/cimba/native/trial.c:279-283 | with a power-of-two capacity the mask keeps any hash in range and wraps the next slot |
| SpawnedIndex.Index.Insert | src/cimba/native/trial.c:285-309 | insertion, with doubling and rehashing, terminates and keeps the index equal to the list and at most half full |
| SpawnedIndex.Index.Find | src/cimba/native/trial.c:311-322 | find terminates and returns what walking the list would |
| Streams.MixIsABijection | src/cimba/native/inputs.c:15-21 | splitmix64's output function is a bijection of 64-bit words |
| Streams.NextIsABijection | src/cimba/native/inputs.c:23-31 | next64's update of the 256-bit state is a bijection |
| Streams.SeedingIsInjective | src/cimba/native/inputs.c:96-107 | different seeds give different states after the warm-up |
| Streams.NoEarlyRepeat | src/cimba/native/inputs.c:23-31 | a state comes back only after a multiple of 2^64 draws |
| Streams.TurnedBit | src/cimba/native/inputs.c:29 | bit i of the turned third word is bit i + 40 modulo 64 of the old one |
| Streams.TurnedNumber | src/cimba/native/inputs.c:29 | and as a number the turned word is 2^24 times the old one, modulo 2^64, plus its quotient by 2^40 |
| Streams.SeedOfZero | src/cimba/native/inputs.c:15-31 | the four words that splitmix64 gives for the seed 0, and the state after the warm-up, as literals |
| Generators.Generator.Next64 | src/cimba/native/inputs.c:23-31 | in place: the four words step to the next state, the value is the draw, and the new third word is 2^24 times the old one plus its quotient by 2^40 plus the value |
| Generators.Generator.Seed | src/cimba/native/inputs.c:96-103 | in place: the loops leave the seeded state, which `SeedOfZero` gives for one seed |
| InputSlots.Slot.Next | src/cimba/native/inputs.c:249-276 | a read gives the next draw or row, or past the rows what the policy says, and says how cursor and status move; a failed slot stays as it is |
| InputSlots.Slot.DrawsAt | src/cimba/native/inputs.c:313-334 | whatever was asked before, the answer for a bucket is the bucket's own draw, the cursor is one past the largest bucket asked, and the history is kept; it fails exactly when a draw up to there fails or the history cannot grow |
| InputSlots.Slot.At | src/cimba/native/inputs.c:278-335 | a series read at a time in the b-th stretch of length step from the origin gives draw or row b for every kind and policy, in any order of reads, with the cursor one past the largest read; it fails before the origin, past bucket 2^63 - 1, and on a bad step or status; the slot can be read again whatever the outcome |
| InputSlots.OneBucket | src/cimba/native/inputs.c:284 | each time from the origin on is in exactly one such stretch |
| InputSlots.GrowsTo | src/cimba/native/inputs.c:314-319 | the history's sizes are 16 doubled, up to the largest that fits |
| Extension.SameRun | src/cimba/native/inputs.c:249-276 | a deterministic trial that does not run out has the outcome it has on any rows that answer the same |
| SlotReads.ReadNext | src/cimba/native/inputs.c:257-275 | what a slot of rows gives one value after the other is the reply that re-execution counts on: the row, the wrapped row, the end of the trial, running out or a failure, as the policy says |
| SlotReads.ReadAt | src/cimba/native/inputs.c:290-312 | and so is what it gives as a series, for any bucket |
| SlotReads.RunOnSlots | src/cimba/native/inputs.c:249-312 | a trial that reads through its slots until it returns or a slot stops it has the outcome of the run on those replies |
| Extension.TrialIsTransparent | src/cimba/experiments/snapshot.py:556-637 | if the sources that may grow are as prefix stable as they claim, reruns end, at most six for each source that extends, find no changed prefix, and end in the outcome of the run on the ideal unbounded rows or with the limit reached, for every trial on transparent sources, and on any sources if no copy of a row source is read |
| Extension.ReachOfUnlimited | src/cimba/experiments/snapshot.py:600-617 | with no maximum length a row can be given 64 times its first length |
| Extension.LimitIff | src/cimba/experiments/snapshot.py:596-622 | a trial that reads no copy of a row source ends at the limit exactly if its ideal run reads past what six doublings, or the maximum length, allow a source that extends; otherwise it ends as the ideal run |
| Extension.ExtensionShows | src/cimba/experiments/snapshot.py:571-582 | on any other settings, with rows that count, some trial succeeds after an extension with a result it would not have on its ideal rows |
| Extension.GrowUses | src/cimba/experiments/snapshot.py:596-628 | each rerun uses up an extension of every row it lengthens, so the loop ends |
| Extension.GrowUsesExtensions | src/cimba/experiments/snapshot.py:596-628 | and a rerun that lengthens a source that extends uses up one of the extensions of those sources |
| Extension.WhatRunsOut | src/cimba/native/inputs.c:273-275 | only an extendable source asks for longer rows |
| Batches.Batch.ExtendTarget | src/cimba/experiments/snapshot.py:591-629 | in place: the override becomes the generated row of twice the length and the count one more; it stops with the limit exactly if the row cannot be generated longer, was doubled six times or would exceed its maximum, and with an error exactly if the longer row does not begin with the old one; no other trial's entries change |
| Batches.Batch.Rerun | src/cimba/experiments/snapshot.py:558-637 | in place: the loop ends with the model's outcome and number of reruns, and every other trial's block, rows and counts are as they were |
| Batches.Batch.Run | src/cimba/experiments/snapshot.py:548-637 | in place: every block ends with its own trial's outcome, or a changed prefix is reported |
| Bootstrap.PrefixStability | src/cimba/inputs/bootstrap.py:21-71 | for iid, moving, circular and stationary blocks, n indices are the first n of m from the same stream |
| Bootstrap.ResamplePrefix | src/cimba/inputs/bootstrap.py:38-83 | and so n resampled values are the first n of m |
| Bootstrap.IntermittentPrefix | src/cimba/inputs/bootstrap.py:100-113 | the same for intermittent demand |
| Bootstrap.DrawPeriod | src/cimba/inputs/bootstrap.py:104-112 | a period has demand exactly if its draw is below the probability after a period with, or without, demand; its size is a drawn one, or the jittered one if that is positive |
| Bootstrap.IndicesInRange | src/cimba/inputs/bootstrap.py:21-71 | every resample index is a row of the data |
| Bootstrap.BlockIndexAt | src/cimba/inputs/bootstrap.py:52-68 | entry r of block q is the block's start and r more, taken around the end for circular blocks |
| Bootstrap.IndexAt | src/cimba/inputs/bootstrap.py:21-71 | every index of each method by its draws: a draw for each; a start that leaves room and the place in the block; any start and the place, wrapped; and for stationary blocks the entry of the one block it is in, whose length is drawn after its start with the reciprocal of the mean |
| Bootstrap.PrefixOrderHasIdeal | src/cimba/inputs/sources.py:116 | a generator in prefix order has one ideal row of which every row is the beginning, which is what extension asks of a source |
| Bootstrap.JointRowsAlign | src/cimba/inputs/bootstrap.py:119-148 | the members of a panel share a tag and so, with the trial's seed, a stream: one index sequence serves them all, whatever inputs they are bound to |
| Bootstrap.StationaryIndices | src/cimba/inputs/bootstrap.py:21-35 | the loop fills the array with the stationary indices |
| Bootstrap.IntermittentRow | src/cimba/inputs/bootstrap.py:100-113 | the loop fills the array with the periods drawn in time order |
| RowCaches.RowCache.Rows | src/cimba/experiments/snapshot.py:97-119 | whatever the cache holds or drops, each seed gets the row its source generates, the bytes add up, and the rows kept fit the memory |
| RowCaches.EightBytes | src/cimba/experiments/snapshot.py:112-124 | the bytes counted are eight for every value held |
| RowCaches.RowCache.Keep | src/cimba/experiments/snapshot.py:112-124 | a new row joins the cache at the end, and only front rows go, no more than the memory asks |
| RowCaches.RowCache.Trim | src/cimba/experiments/snapshot.py:121-124 | the least recently used rows go, and no more of them than needed |
| TopologicalOrder.OrderMeansNoCycle | src/cimba/diagrams/graph.py:89-114 | a graph with a forward order of all its nodes has no cycle |
| TopologicalOrder.WalkBack | src/cimba/diagrams/graph.py:111-113 | nodes that all wait for each other lie behind a cycle |
| TopologicalOrder.WaitingDrops | src/cimba/diagrams/graph.py:107-108 | putting a node in the order takes exactly its own edges, parallel ones included, off the counts |
| TopologicalOrder.TopologicalOrder | src/cimba/diagrams/graph.py:89-114 | the result is a permutation with every edge forward, or an error exactly when the graph has a cycle, naming nodes that all wait for each other |
| SlotTables.BaseSlotsArePrefix | src/cimba/schema/__init__.py:354-361 | on a single-inheritance chain a base's slots are a prefix of each derived class's |
| SlotTables.SlotsAreFirstDeclarations | src/cimba/schema/__init__.py:307-319 | when the table fails, and which slots it has in which order, said of the declarations alone |
| SlotTables.SlotNames | src/cimba/schema/__init__.py:307-319 | the names with slots are exactly those declared as event, predicate or function, and the table fails exactly when a method that is one is declared again with another role |
| SlotTables.EverySlotHasABody | src/cimba/schema/__init__.py:307-319 | every slot of a class has a body to dispatch to |
| SlotTables.OwnIs | src/cimba/schema/__init__.py:307-319 | a class's own dictionary gives a name the body of a method of that name, exactly if it declares one |
| SlotTables.BaseCallReachesOverride | src/cimba/schema/__init__.py:307-319 | a call through a base's slot reaches, in any derived class, the method of that name of the last class of the chain that declares one, and there is one |
| SlotTables.SlotsOf | src/cimba/schema/__init__.py:307-319 | the loops give one slot for each name declared as event, predicate or function, in order of first declaration, or an error exactly when a later declaration of such a name changes the role |
| Variants.Group | src/cimba/experiments/run.py:178-180 | the groups partition the design points by their structural options |
| Variants.RunVariants | src/cimba/experiments/run.py:169-197 | the merged grid has for each point and seed the cell of that point and seed, and nothing exactly where the point's options leave the model out |
| Variants.Only | src/cimba/experiments/run.py:125-145 | the result selected by point * replications + replication is that cell, absent where its options leave the model out; an empty or out-of-range selection is refused |
| Variants.RunChunked | src/cimba/experiments/snapshot.py:325-370 | every cell is that of its own point and seed, divmod finds each replication in its chunk, a chunk has as many replications as fit, and only a single replication that does not fit is refused |

## Left out

- The engine (coroutines, event queue, hashheap and guard internals) is not part of this model beyond the assumptions above.
- Numba lowering, ctypes loading, the ABI layout and the image layout: foreign code generation and offsets.
- Histories, loggers, reports, observers of a guard and captures: a signal's forwarding to conditions has no effect on the pools.
- The failing of a trial unwinds it; the model stops at the outcome `Abandoned` with the state unchanged.
- Process handles are indices; a handle is never reused for another process within a trial.
- The order of events at the same instant: the model delivers them in any order, which covers the engine's.
- 64-bit wrap of amounts: amounts and capacities are at most 2^63 - 1 where they enter, and the use is within a capacity, so nothing wraps.
- Model code that signals or wakes a process at a time later than its retirement: `MaySignal` excludes it, as the code's argument does.
- Memory exhaustion of malloc, calloc and realloc abandons the trial and is not modelled; the size limit of a series history is.
- The records, arrays and end hooks of spawned models, and models released before they start.
- SpawnedIndex.Index.Find: records are distinct, as live allocations are.
- Values of the distributions: a draw is any deterministic function of the generator's state that may fail.
- Double rounding in `floor((time - origin) / step)`: times and steps are reals, so the cast at exactly 2^63 does not arise.
- An input that is read both by value and as a series: the history is then not the draws in order, and no property is claimed.
- NumPy's generator: an array draw is taken to be that many single draws in turn, and every draw to be deterministic.
- A source object freed and replaced at the same address, which the row cache's key would confuse.
- Trials that observe how many rows remain: a trial sees only the values it reads.
- Result assembly beyond single cells (sources, consumed counts, signals) repeats the same scatter and is not modelled again.
- Multiple inheritance is refused by the prefix check; the method resolution order itself is an input.
- Mermaid and DOT rendering, process graph inference, fitting, statistics, optimizers, decisions and parameter validation.
