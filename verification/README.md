# Verification of the real-time CPU driver

This project models the dynamic-resource-allocation driver for real-time CPU bandwidth and
proves properties of the model in Dafny 4.11. `dafny verify dfyconfig.toml` checks all of it.

The driver's controller hands out CPU bandwidth in per mille of a CPU. For each pod it
*probes* candidate nodes, packing the pod's claims by worst fit and reserving CPUs in
memory; it *commits* a claim on the node the scheduler picks, writing the reservation into
the node's stored object; and it *releases* a claim by taking it off that object again. A
kubelet plugin on each node prepares committed claims and shares the same object. Three
records have to agree: the committed claims, the per-CPU ledger kept beside them, and the
pending reservations with their shadow utilisation.

## Layout

| file | content |
|---|---|
| `Nas.dfy` | the stored object, per-mille shares, the ledger operations |
| `Demand.dfy` | sums of shares over sets of claims, capacity, well-formed claims |
| `Partition.dfy` | `cpuPartitioning`: scoring, the stable sort, why the greedy choices are right |
| `Packing.dfy` | packing a batch; its order theory on sorted vectors of utilisations |
| `Completeness.dfy` | when greedy packing finds room whenever there is some |
| `Reservation.dfy` | requests, reservations, the invariant of one node, one operation at a time |
| `Cluster.dfy` | the controller as a state machine over all nodes, and safety over runs |
| `Effects.dfy` | what one step changes, in terms of the records themselves |
| `Shadow.dfy`, `ShadowLimits.dfy` | the shadow utilisation: where it is sound, and exactly where it is not |
| `Promise.dfy`, `Guarantees.dfy`, `Scheduling.dfy` | from the list of unsuitable nodes to the commits, the shape of reservations, monotonicity |
| `Pending.dfy`, `RtController.dfy`, `Driver.dfy`, `Mutex.dfy` | the controller's classes and methods, each proved to be a step of the state machine |
| `Interleaving.dfy`, `Atomicity.dfy` | the same operations taken apart into steps of concurrent threads, and put together again |
| `Vanishing.dfy` | a reservation that vanishes between check and use: exactly when, what follows, and a run |
| `Plugin.dfy`, `NodeDriver.dfy`, `Ownership.dfy`, `OwnershipLimits.dfy` | the kubelet plugin, and both processes on the shared object |
| `Cdi.dfy`, `Decimal.dfy` | device-name strings and decimal keys |
| `Bandwidth.dfy`, `Overload.dfy` | the real bandwidth behind truncated shares, and the runs that overload a CPU |
| `HalfCpu.dfy` | the node and the claim that example runs are made from |

## How the model is built

`Cluster.Next` describes one controller operation as an atomic step: `Probe`, `Commit` or
`Release` on one node, each with parameters for what the environment decides (whether the
object can be fetched, whether a write takes effect, and which of several equally good CPUs
are chosen). A write is `Applied`, `Rejected`, or a `LostReply` that took effect although it
was reported as failed. The imperative classes in `Pending.dfy`, `RtController.dfy` and
`Driver.dfy` follow the Go methods branch by branch; the contracts of the `Driver` methods
say that each call is such a step (or a segment of them), so that the theorems about runs
apply to them. Iteration over Go maps takes keys in an arbitrary order (`Nas.NextKey`).

What the API server and the file system do is a parameter of each method (whether a fetch is
answered, what becomes of a write, whether a spec file can be written or deleted), so that a
method's answer is determined by its inputs and stated as an exact condition on them. Only
choices among equals, which map iteration makes, are left open.

The scheduler's theory rests on one observation: a worst-fit step is a function of the
node's *sorted vector* of utilisations (`Packing.Step`). `Packing.PackingRefined` shows that
every run of the greedy loop, with any tie-breaking and any order of enumeration, ends with
the vector that `Packing.Admit` computes; monotonicity is then proved on vectors.

`Interleaving.dfy` drops the atomicity. A thread gets the node's mutex, locks it, and then
fetches, reads pending claims one at a time and visits each, packs, records reservations
one at a time, checks for a reservation, takes it, writes, and forgets it, in separate steps;
between any two of them other threads may act on other nodes and remove reservations of
this one. `Atomicity.UndisturbedAmounts` ties the two levels together, and
`Atomicity.AmountsOnNode` does so node by node while other operations go on.

Assumptions, all visible as preconditions or as guards of steps:

- A claim's `Count` is at least one (the driver checks this), its `Runtime` is not negative
  and its `Period` is positive (it does not check these), and no product overflows. On this
  domain Go's and Dafny's division agree; `Nas.GoDiv` spells Go's out.
- The claims of one batch have distinct UIDs.
- A claim's parameters are the same at every probe, as long as nobody edits the parameters
  object. Only the rows that speak of a claim's request beyond the probe that read it need
  this, and each says so; `Promise.EveryReservationWasAsked` is what holds without.
- Base utilisations lie in `0..949` (the plugin writes 0). CPU identifiers are integers; the
  ledger's keys are their decimal strings, and `Decimal.AtoiOfItoa` shows that nothing is lost.
- A missing ledger and an empty one are the same stored value, because the field is
  marshalled with `omitempty`.
- A plugin's read-modify-write of an object and a controller's do not overlap on one node.
  This cannot be derived from the code: `Client.Update` fetches the object again and
  overwrites its whole spec, so version checks do not prevent a lost update.
- A node keeps its CPUs over restarts of its plugin, and enumeration starts each of them at
  zero, as the code does.
- Claims are released only after they were unprepared. This is a guard in `Ownership.dfy`
  only; nothing in the controller checks it.

## Findings

- The shadow utilisation is not always an over-estimate. A commit that takes effect although
  its reply is lost leaves the committed claim's reservation behind. From an exact shadow, a
  step then breaks it if and only if it takes such a claim off the shadow of a node while
  the claim stays committed there and has a share (`ShadowLimits.StepKeepsShadow`); from a
  shadow that is merely sound, nothing else breaks it (`ShadowLimits.ShadowSoundUntilUndercount`).
  `ShadowLimits.ShadowCanUndercount` is a run of four steps that does. Lost replies to releases
  are harmless (`Shadow.ShadowOverEstimates`). Capacity safety does not depend on any of this,
  because the shadow influences no decision.
- A reservation can vanish between `Exists` and `Get` inside one commit. `Vanishing.VanishingRun`
  is a run in which another thread commits the same claim on another node in between. The
  claim is committed without CPUs if and only if some other operation forgets, drops or sweeps
  away its reservations in that time (`Vanishing.VanishedExactlyIf`); from then on no release
  of it ever acts (`Vanishing.NeverReleased`). A probe of the node dereferences nil if and only
  if its batch contains such a claim and the batch's claims before it fit
  (`Vanishing.PanicsExactlyIf`); `Vanishing.PanickingRun` is the run above, continued to that point.
- Truncated shares under-count real bandwidth by less than one per mille a claim
  (`Bandwidth.LoadTruncates`). Up to 51 claims never take a whole CPU or more; 52, or any larger
  number, can (`Overload.OverloadedExactlyFrom`). Nothing bounds the number of claims below
  one per mille (`Overload.TinyClaims`).
- Packing a batch greedily is not complete: claims of 400, 400 and 800 per mille fit on two idle
  CPUs, but the node is marked (`Completeness.UnequalSharesIncomplete`). Where all shares of the
  batch are equal, a node that is up is marked if and only if the batch cannot be placed on it
  at all (`Completeness.EqualSharesComplete`, `Completeness.EqualSharesMarked`).
- A prepare whose write back fails unprepares the claim even if it had been prepared by an
  earlier call; `Ownership.FailedPrepareForgets` says exactly when, and
  `OwnershipLimits.RepeatedPrepareForgets` is a run in which the object still lists the claim
  while the plugin does not. After a lost reply the object always does.
- Preparing a claim whose allocation has an empty list of CPUs ends in an index error while the
  names are made, before anything is recorded (`NodeDriver.NodeDriver.NodePrepareResource`).
- The plugin looks stored CPUs up by enumeration position. Where identifiers and positions
  differ, a restart can end in a nil dereference from which it never recovers
  (`OwnershipLimits.RestartCanFail`), or bring claims back on other CPUs
  (`Plugin.RestartRoundTrip`). Where every identifier is some CPU's position it always gets
  through (`Ownership.RestartGetsThrough`), and where it is its own CPU's, on the same CPUs
  (`Ownership.RestartNeverFails`).
- A reservation of a claim that is never committed keeps its capacity for ever
  (`Promise.AbandonedReservation`): releasing such a claim returns before anything is dropped.
- The branch of `allocate` that deletes an overloaded CPU can never be taken
  (`RtController.PlaceClaim`), and the utilisation map it returns, which its caller throws
  away, equals the one the caller rebuilds (`RtController.RtDriver.UnsuitableNode`).

## Model

| member | source | states |
|---|---|---|
| Cluster.CapacitySafety | cmd/dra-rt-controller/driver.go:109-287 | In every state of every run from the empty cluster, with probes, commits, releases, lost and rejected writes and plugin writes in any order, on every CPU the base load plus the shares of all claims committed or pending on its node, each once, is below 950 |
| Interleaving.InterleavedCapacity | cmd/dra-rt-controller/rt.go:99-176 | The same bound in every interleaving of the operations' individual steps on different nodes, with the visitor called after the store's lock was dropped, and at most one operation inside a node at a time |
| Cluster.LedgerIsHistoryIndependent | api/example.com/resource/rt/nas/v1alpha1/nas.go:151-172 | In every reachable state the ledger is base plus the sum of the committed claims' shares, so two runs that end with the same claims end with the same ledger |
| Cluster.ReleaseSubtractsExactly | cmd/dra-rt-controller/driver.go:254-279 | In every reachable state a release takes exactly the claim's share off every CPU: the clamp at zero does not fire and no ledger entry is missing |
| Cluster.NextKeepsInv | cmd/dra-rt-controller/driver.go:109-287 | Every operation, whatever becomes of its reads and writes, keeps every node in order: ledger equal to recomputed sum, well-formed claims, load below the threshold |
| Cluster.RunKeepsInv | cmd/dra-rt-controller/driver.go:109-287 | The invariant holds in every state of every run |
| Cluster.PendingReserved | cmd/dra-rt-controller/allocations.go:116-129 | Recording reservations on a node changes what is pending there by exactly these, and nothing elsewhere |
| Cluster.PendingRemoved | cmd/dra-rt-controller/allocations.go:171-176 | Removing claims from the store takes exactly them off what is pending on each node |
| Effects.CommitEffect | cmd/dra-rt-controller/driver.go:109-174 | A commit takes effect exactly if the node is fetched and ready, the claim pending on it and not committed, and the write not rejected: then the object has the very reservation and its share on the ledger, and, unless the reply is lost, the claim is pending nowhere and its reservations on other nodes are off their shadow. Nothing else changes |
| Effects.ReleaseEffect | cmd/dra-rt-controller/driver.go:176-287 | A release acts exactly if the node is fetched and has the claim with CPUs: then the claim is pending nowhere and off every shadow even if the write is rejected, and otherwise also off the object and its ledger. Nothing else changes |
| Effects.ProbeEffect | cmd/dra-rt-controller/driver.go:304-369 | A probe changes reservations only: it drops those of claims committed on the node, and, if the batch fits, adds exactly the batch's claims not held there; a node not fetched or not ready changes nothing |
| Effects.ProbeReserves | cmd/dra-rt-controller/rt.go:119-176 | Each claim so added gets the number of distinct ledger CPUs, the runtime, the period and the cgroup asked for, and the node's shadow becomes base plus everything then held; a probe without success leaves the shadow alone |
| Effects.OneClaimFits | cmd/dra-rt-controller/rt.go:199-266 | A node is suitable for a single claim if and only if it is fetched and ready and holds the claim already or has enough CPUs whose load stays below 950 with runtime * 1000 / period added |
| Effects.DischargeTakesOff | cmd/dra-rt-controller/allocations.go:178-241 | Subtracting a claim on distinct CPUs takes its share off each, down to zero, and touches no other entry |
| Reservation.PackingAddsClaims | cmd/dra-rt-controller/rt.go:202-240 | The ledger that packing updates CPU by CPU equals the sum recomputed over the old claims and the new reservations |
| Reservation.PackingFits | cmd/dra-rt-controller/rt.go:202-240 | A successful packing keeps the node's total load below the threshold |
| Reservation.OverlayExact | cmd/dra-rt-controller/rt.go:100-111 | Laying pending reservations over the fetched object charges everything committed or pending, each claim once |
| Reservation.ProbeExact | cmd/dra-rt-controller/rt.go:119-170 | The utilisation a successful probe stores is base plus everything committed or pending afterwards, and below the threshold |
| Reservation.ProbeServes | cmd/dra-rt-controller/rt.go:206-237 | Every new reservation has exactly the requested number of distinct ledger CPUs, all with the claim's runtime and period |
| Reservation.TodoKeepsOrder | cmd/dra-rt-controller/rt.go:199-210 | The batch's claims that have to be placed are placed in the order of the batch |
| Reservation.NodeOkProbe | cmd/dra-rt-controller/rt.go:99-176 | A successful probe keeps the node in order |
| Reservation.NodeOkCommit | cmd/dra-rt-controller/rt.go:66-68 | A commit keeps the node in order although it does not look at the threshold again |
| Reservation.NodeOkRelease | cmd/dra-rt-controller/driver.go:254-279 | A release keeps the node in order |
| Reservation.CommittedExact | cmd/dra-rt-controller/rt.go:66-68 | The ledger a commit writes agrees with the claims it writes |
| Reservation.ReleasedExact | cmd/dra-rt-controller/driver.go:254-279 | The ledger a release writes agrees with the claims it leaves, and is the old one less exactly the claim's share |
| Reservation.ReleaseUndoesCommit | cmd/dra-rt-controller/driver.go:254-279 | Release after commit restores the claims and the ledger |
| Nas.ChargeAdds | api/example.com/resource/rt/nas/v1alpha1/nas.go:151-172 | Charging a claim entry by entry adds exactly its share on every CPU |
| Nas.DischargeSubtracts | cmd/dra-rt-controller/allocations.go:178-241 | Subtracting a covered claim entry by entry takes exactly its share; the clamps never fire, and the controller's two ways of subtracting agree |
| Nas.NodeAllocationState.SetUtilisation | api/example.com/resource/rt/nas/v1alpha1/nas.go:151-172 | Charges the recorded claim to the ledger, skips entries without a period, and changes nothing else |
| Nas.NodeAllocationState.InitialiseLedger | cmd/dra-rt-controller/driver.go:134-149 | Fills an empty ledger from the allocatable CPUs and leaves any other alone |
| Demand.LoadRemove | api/example.com/resource/rt/nas/v1alpha1/nas.go:151-172 | The sum of shares over a set of claims does not depend on the order of summation |
| Demand.AddLoadInsert | api/example.com/resource/rt/nas/v1alpha1/nas.go:151-172 | Recording a claim and charging it agrees with recomputing the sum |
| Demand.AddLoadRemove | cmd/dra-rt-controller/driver.go:258-276 | Dropping a claim and subtracting it with clamps agrees with recomputing the sum |
| Demand.ChargeTotal | api/example.com/resource/rt/nas/v1alpha1/nas.go:151-172 | Charging a claim grows the ledger's total by the sum of its entries' shares |
| Partition.CpuPartitioning | cmd/dra-rt-controller/rt.go:247-296 | Fails exactly if fewer CPUs than requested have room; otherwise returns that many distinct ledger CPUs with room in score order, none beaten by an unchosen CPU, for either policy and any order of enumeration |
| Partition.ScoreCpus | cmd/dra-rt-controller/rt.go:252-262 | Lists each CPU with room exactly once with its score, in any order of enumeration |
| Partition.SliceStableSorts | cmd/dra-rt-controller/rt.go:267-288 | The sort orders by score and permutes its input |
| Partition.SliceStableKeepsOrder | cmd/dra-rt-controller/rt.go:267-288 | The sort keeps equally scored CPUs in their original order |
| Partition.WorstFitMinimisesPeak | cmd/dra-rt-controller/rt.go:267-273 | Among all sets of that many CPUs with room, worst fit leaves the node with the lowest peak utilisation |
| Partition.BestFitMaximisesExisting | cmd/dra-rt-controller/rt.go:274-280 | Best fit chooses a set of maximal existing utilisation |
| Packing.PackingRefined | cmd/dra-rt-controller/rt.go:199-245 | Any run of the greedy loop ends with the sorted utilisations that `Admit` computes, whatever ties are broken how |
| Packing.PackingDeterministic | cmd/dra-rt-controller/rt.go:199-245 | Two successful runs on nodes with the same sorted utilisations end with the same sorted utilisations |
| Packing.StepRefined | cmd/dra-rt-controller/rt.go:207-235 | One worst-fit placement on a ledger is one step on its sorted vector |
| Packing.StepStuck | cmd/dra-rt-controller/rt.go:264-266 | A step on the vector fails exactly if too few CPUs have room |
| Packing.StuckStaysStuck | cmd/dra-rt-controller/rt.go:215-218 | A batch that fails on a prefix fails |
| Packing.AdmissionMonotone | cmd/dra-rt-controller/rt.go:199-245 | No scheduling anomalies: a batch that fits some utilisations fits any pointwise lower ones, and so does any lighter batch, and the resulting vectors keep the order |
| Packing.ProfileMonotone | cmd/dra-rt-controller/rt.go:252-273 | Lowering the load of CPUs lowers the sorted vector pointwise |
| Packing.LessLoadStillAdmits | cmd/dra-rt-controller/rt.go:199-245 | A node with less load on each CPU admits every batch it admitted before |
| Packing.PackingKeepsBound | cmd/dra-rt-controller/rt.go:253-262 | Packing leaves every CPU below the threshold that was below it |
| Completeness.AdmitsWhatGreedyPacks | cmd/dra-rt-controller/rt.go:199-245 | The verdict on a batch is positive if and only if some run of the worst-fit loop serves all of it |
| Completeness.EqualSharesComplete | cmd/dra-rt-controller/rt.go:199-245 | Where all shares of a batch are equal, packing accepts it if and only if any placement at all serves every claim on distinct CPUs below the threshold |
| Completeness.EqualSharesMarked | cmd/dra-rt-controller/rt.go:99-176 | So such a batch finds a node suitable if and only if the node is up and the batch can be placed on it next to what is held there |
| Completeness.AdmittedFits | cmd/dra-rt-controller/rt.go:199-245 | Whatever the shares, a batch that packing accepts has such a placement |
| Completeness.UnequalSharesIncomplete | cmd/dra-rt-controller/rt.go:199-245 | With unequal shares the converse fails: three claims that fit on two idle CPUs are refused |
| Shadow.ShadowOverEstimates | cmd/dra-rt-controller/allocations.go:178-241 | In every run in which no commit loses its reply, the shadow of a node it mentions has the node's CPUs and is at least base plus committed plus pending |
| Shadow.ShadowClampsNeverFire | cmd/dra-rt-controller/allocations.go:178-241 | In such a run, subtracting any reservation from the shadow takes exactly its share: no clamp fires |
| Shadow.ProbeSetsShadow | cmd/dra-rt-controller/rt.go:167-170 | Right after a successful probe the shadow is exact |
| ShadowLimits.StepKeepsShadow | cmd/dra-rt-controller/rt.go:73-91 | From an exact shadow, a step keeps the shadow of a node an over-estimate if and only if it does not take off it a claim that stays committed there and has a share |
| ShadowLimits.RunKeepsShadowExactlyIf | cmd/dra-rt-controller/rt.go:73-91 | The same for every step from an exact shadow in every run, whatever replies were lost before |
| ShadowLimits.ShadowSoundUntilUndercount | cmd/dra-rt-controller/rt.go:73-91 | In every run, with any lost replies, a sound shadow of a node, exact or with slack, stays sound until a step takes off it a claim that stays committed there and has a share |
| ShadowLimits.NextKeepsStaleAgrees | cmd/dra-rt-controller/rt.go:66-80 | A reservation left behind by a commit always has the CPUs of the committed claim |
| ShadowLimits.LostReplyUndercounts | cmd/dra-rt-controller/rt.go:73-91 | One way into it: from an exact shadow, a commit with a lost reply and then a rejected release keep the shadow an over-estimate if and only if the claim's share is zero |
| ShadowLimits.DroppingCommitted | cmd/dra-rt-controller/allocations.go:178-207 | Dropping the reservation of a claim that stays committed keeps an exact shadow sound if and only if the claim's share is zero |
| ShadowLimits.ShadowCanUndercount | cmd/dra-rt-controller/rt.go:73-91 | A concrete run of four steps after which the shadow is too low |
| Promise.ReservationStable | cmd/dra-rt-controller/rt.go:100-132 | A pending reservation survives a step unchanged exactly if the step is not one of four that drop it; a later probe of its node never changes it |
| Promise.CommittedStable | cmd/dra-rt-controller/driver.go:278-281 | A committed claim stays, on the same CPUs, exactly until a release of it from its node takes effect |
| Promise.AbandonedReservation | cmd/dra-rt-controller/driver.go:176-180 | While a claim is committed nowhere and nobody commits it, no step of any kind removes or changes its reservation, and its share stays taken |
| Promise.ProbeHolds | cmd/dra-rt-controller/rt.go:119-176 | After a successful probe each claim of the batch is committed or reserved on the node |
| Promise.PromiseKept | cmd/dra-rt-controller/rt.go:55-57 | A claim held on one node only is never refused there for want of a reservation, after any steps that do not release it or commit it elsewhere |
| Promise.ShapeOverRuns | cmd/dra-rt-controller/rt.go:219-237 | In every run whose probes agree on each claim's parameters, every pending or committed cpuset has exactly the requested number of distinct ledger CPUs, all with the claim's runtime and period |
| Promise.EveryReservationWasAsked | cmd/dra-rt-controller/rt.go:219-237 | In every run, whatever parameters its probes carry, every pending or committed cpuset of a node has exactly the number of distinct CPUs, the runtime and the period that an earlier probe of that node asked for the claim |
| Promise.BatchCommitted | cmd/dra-rt-controller/driver.go:99-107 | However the commits of a batch on a node are mixed with other steps, they together grow its ledger by exactly the load of the claims that were not committed before and are now, and every claim stays served on the node |
| Promise.NothingLeftPending | cmd/dra-rt-controller/rt.go:73-80 | A commit that takes effect leaves its claim pending on no node until a later probe of that claim |
| Guarantees.ProbeThenCommit | cmd/dra-rt-controller/driver.go:289-302 | After a successful probe, a commit of any claim of the batch on that node, any number of harmless steps later, finds its reservation, and succeeds if the node is ready and the write takes effect |
| Guarantees.ProbeThenCommitBatch | cmd/dra-rt-controller/driver.go:99-107 | In every run whose probes agree on each claim's parameters, after a probe leaves a node unmarked, with any other steps on any node before, between and after the commits that neither release a claim of the batch nor commit it elsewhere: every commit succeeds, they grow the ledger by exactly count times share of the claims not committed before, and a claim committed by its commit is left pending nowhere unless it is probed again |
| Guarantees.BatchGetsDone | cmd/dra-rt-controller/driver.go:99-107 | The same from any state in which the batch is served on a node that was probed |
| Scheduling.UnmarkedWasSuitable | cmd/dra-rt-controller/driver.go:289-302 | A candidate that does not get marked while the candidates are probed, at any increasing steps, had room for the batch at its probe |
| Scheduling.CallProbes | cmd/dra-rt-controller/driver.go:289-302 | The probes of one call of `UnsuitableNodes` are such probes, at consecutive steps, and mark the nodes that the call adds to the lists |
| Scheduling.UnmarkedThenCommitted | cmd/dra-rt-controller/driver.go:289-302 | From a claim's list of unsuitable nodes to the commits: let other steps, of any kind and on any node, come between the candidates' probes and between the commits. On a candidate that is not in the list after all candidates were probed, the batch's commits have all the above effects |
| Guarantees.OnlyProbesAdd | cmd/dra-rt-controller/allocations.go:116-176 | Only a probe of a node adds to what is committed and pending on it |
| Guarantees.SuitabilityKept | cmd/dra-rt-controller/driver.go:176-287 | No release, commit or probe of another node turns a suitable node unsuitable for a batch not yet reserved on it |
| Guarantees.SuitabilityKeptOverSegments | cmd/dra-rt-controller/driver.go:176-287 | The same over any number of steps |
| Pending.PerNodeAllocatedClaims.Exists | cmd/dra-rt-controller/allocations.go:40-50 | Whether the claim has a reservation on the node |
| Pending.PerNodeAllocatedClaims.Get | cmd/dra-rt-controller/allocations.go:60-67 | The reservation, or the zero value if there is none |
| Pending.PerNodeAllocatedClaims.Set | cmd/dra-rt-controller/allocations.go:116-129 | Records exactly the given reservation; ignores the zero value |
| Pending.PerNodeAllocatedClaims.SetUtil | cmd/dra-rt-controller/allocations.go:131-141 | Replaces the node's shadow utilisation |
| Pending.PerNodeAllocatedClaims.RemoveNode | cmd/dra-rt-controller/allocations.go:159-169 | Drops the claim's reservation on one node and keeps every other reservation |
| Pending.PerNodeAllocatedClaims.Remove | cmd/dra-rt-controller/allocations.go:171-176 | Drops the claim's reservations on all nodes and keeps every other claim's |
| Pending.PerNodeAllocatedClaims.RemoveUtil | cmd/dra-rt-controller/allocations.go:178-207 | Subtracts the claim's reservations, clamped, from the shadow of each node that has both |
| Pending.PerNodeAllocatedClaims.RemoveUtilOtherNodes | cmd/dra-rt-controller/allocations.go:209-241 | The same for every node but one |
| RtController.PlaceClaim | cmd/dra-rt-controller/rt.go:219-236 | Adds the share to the chosen CPUs and lists them with the claim's runtime and period; from any starting map no CPU's load exceeds 950, so none is deleted |
| RtController.PackOne | cmd/dra-rt-controller/rt.go:212-237 | Serves one claim by worst fit and places it, and fails if and only if too few CPUs have room |
| RtController.Pack | cmd/dra-rt-controller/rt.go:178-245 | Packs the batch's unplaced claims if and only if `Admit` accepts them, with worst-fit choices on the ledger left by the ones before, each with the count, runtime and period of its parameters, and lists held claims with the CPUs they have; a failure yields empty results |
| RtController.RtDriver.VisitNode | cmd/dra-rt-controller/rt.go:100-111 | Lays over exactly the node's pending reservations and drops exactly those of committed claims, in any order of visiting |
| RtController.RtDriver.RecordReservations | cmd/dra-rt-controller/rt.go:119-166 | Records exactly the packing and rebuilds the load it leads to; without a packing marks every claim once and records nothing |
| RtController.RtDriver.UnsuitableNode | cmd/dra-rt-controller/rt.go:99-176 | All or nothing: the batch fits, nothing is marked and the stored load is the one packing computed; or it does not, every claim is marked and nothing new is reserved. Each claim not held before then has count distinct entries with the runtime and period of its parameters; a single such claim is marked exactly if fewer than count CPUs have room for runtime * 1000 / period. Only the batch's own claims have to have CPUs |
| RtController.RtDriver.Allocate | cmd/dra-rt-controller/rt.go:52-71 | Moves the claim's reservation into the fetched object and charges it, or refuses, or does nothing if it is committed |
| RtController.RtDriver.OnSuccess | cmd/dra-rt-controller/rt.go:73-80 | Takes the claim off the shadow of the other nodes and off the pending store |
| RtController.RtDriver.Deallocate | cmd/dra-rt-controller/rt.go:85-95 | Takes the claim off the shadow of every node and off the pending store |
| Driver.Driver.AllocateOne | cmd/dra-rt-controller/driver.go:109-174 | One commit is exactly the step `Commit`. It succeeds if and only if the node is fetched and ready and has the claim already, or has it reserved, knows its parameters' kind and takes the write; then the claim is committed there. Each error comes exactly under its own condition |
| Driver.Driver.Allocate | cmd/dra-rt-controller/driver.go:99-107 | A batch of commits is a segment of a run; each claim's answer has the same exact conditions in the state its turn came in, and all claims answered without error are committed on the node in the end |
| Driver.Driver.Deallocate | cmd/dra-rt-controller/driver.go:176-287 | One release is exactly the step `Release`. It succeeds if and only if no node was selected, or the object is fetched and does not have the claim, or is fetched twice, has it with CPUs and takes the write; then the object is without the claim |
| Driver.Driver.UnsuitableNode | cmd/dra-rt-controller/driver.go:304-369 | One probe is exactly the step `Probe`. A node not fetched or not ready is marked with no other effect; on a node not marked each claim of the batch not held before has what its parameters ask for; a single such claim is marked exactly if fewer than count CPUs have base, committed and pending load that stays below 950 with runtime * 1000 / period added |
| Driver.Driver.UnsuitableNodes | cmd/dra-rt-controller/driver.go:289-302 | Probing all candidates is a segment of a run; a node is on a claim's list afterwards if and only if it was before or was not suitable at its probe, in order and without repetition. With a claim of unknown kind the call fails if and only if some node is up, at the first one, with the nodes before on the lists |
| Driver.Unique | cmd/dra-rt-controller/driver.go:402-412 | The distinct elements of the list, in order of their first occurrences |
| Driver.MarkedExactly | cmd/dra-rt-controller/driver.go:289-302 | The nodes marked by a sequence of steps are exactly those of its probes that found no room |
| Driver.DischargeLedger | cmd/dra-rt-controller/driver.go:258-276 | Takes the claim's entries off the ledger with a clamp at zero, skipping CPUs it does not list |
| Mutex.PerNodeMutex.Get | cmd/dra-rt-controller/mutex.go:34-41 | The same lock for a node on every call, made on the first one, and different locks for different nodes |
| Interleaving.MutualExclusion | cmd/dra-rt-controller/driver.go:304-306 | Two operations inside the same node are the same operation |
| Interleaving.PhaseStable | cmd/dra-rt-controller/allocations.go:89-102 | What an operation relies on halfway through survives the removal of its node's reservations by others |
| Interleaving.ActsOk | cmd/dra-rt-controller/rt.go:52-176 | Every single step of an operation keeps its own node in order and only removes what is pending elsewhere |
| Interleaving.MovesKeepInv | cmd/dra-rt-controller/rt.go:52-176 | Every step of any thread, and of the plugins, keeps the invariant of the whole |
| Interleaving.OverlayCovers | cmd/dra-rt-controller/rt.go:100-111 | Once every pending claim was visited, the overlay covers all that is committed or pending |
| Interleaving.ProbeSeesWholeLoad | cmd/dra-rt-controller/allocations.go:89-102 | In every interleaving, a probe packs on a ledger that is at least the node's whole load |
| Vanishing.ReservationInStep | cmd/dra-rt-controller/allocations.go:171-176 | A reservation survives a step of any thread or plugin if and only if the step is not one of these |
| Vanishing.ReservationBetween | cmd/dra-rt-controller/rt.go:55-64 | While an operation waits inside its node, a reservation there survives if and only if no other operation forgets, drops or sweeps away its claim |
| Vanishing.VanishedExactlyIf | cmd/dra-rt-controller/rt.go:55-68 | A commit records the claim without CPUs if and only if its reservation was removed between the check and its use; then nothing is charged |
| Vanishing.VanishingRun | cmd/dra-rt-controller/rt.go:55-66 | A run in which another thread commits the claim on another node between check and use |
| Vanishing.NeverReleased | cmd/dra-rt-controller/driver.go:243-252 | In every later world the claim is still committed without CPUs, and no release of it gets past its type check |
| Vanishing.PanicsExactlyIf | cmd/dra-rt-controller/rt.go:202-211 | In every reachable world, a probe dereferences nil while packing if and only if some claim of its batch is committed on the node without CPUs and the batch's claims before it fit |
| Vanishing.PanickingRun | cmd/dra-rt-controller/rt.go:202-211 | A run from the empty cluster that ends with a probe's thread at the nil dereference |
| Atomicity.UndisturbedAmounts | cmd/dra-rt-controller/driver.go:304-306 | An operation whose steps inside its node nobody disturbs changes the store and the reservations exactly as one atomic step of the cluster |
| Atomicity.AmountsOnNode | cmd/dra-rt-controller/driver.go:304-306 | While other operations go on anywhere, as long as they remove no reservation pending on the node and no plugin writes its object, an operation changes the node's object and the reservations on it exactly as one atomic step |
| Plugin.DeviceState.PrepareRtCpus | cmd/dra-rt-kubeletplugin/state.go:205-224 | One prepared entry for each allocated CPU, in order, with its identifier, share and runtime, and no period |
| Plugin.DeviceState.Prepare | cmd/dra-rt-kubeletplugin/state.go:105-142 | Records the claim once, exactly if its allocation has CPUs and its spec file is written, even if reporting then fails |
| Plugin.DeviceState.Unprepare | cmd/dra-rt-kubeletplugin/state.go:144-168 | Succeeds if and only if the claim is not prepared, or has devices and its spec file can be deleted; then it removes exactly the claim, and otherwise nothing |
| Plugin.DeviceState.ListAllocatable | cmd/dra-rt-kubeletplugin/state.go:230-249 | The stored list has exactly the enumerated identifiers, each with the utilisation of a CPU enumerated under it, in any order |
| Plugin.EnumeratedBase | cmd/dra-rt-kubeletplugin/discovery-t.go:53-62 | As every CPU is enumerated at zero, any two stored lists give the same ledger base |
| Plugin.DeviceState.GetUpdatedSpec | cmd/dra-rt-kubeletplugin/state.go:187-203 | Writes the plugin's fields and hands back the controller's as read; fails exactly if some claim has no devices |
| Plugin.DeviceState.StoreClaims | cmd/dra-rt-kubeletplugin/state.go:276-300 | The stored form of all prepared claims, or an error exactly if one has no devices |
| Plugin.DeviceState.SyncPreparedFromSpec | cmd/dra-rt-kubeletplugin/state.go:251-274 | Rebuilds every claim exactly if all are of the known kind and all their CPUs are enumerated; otherwise changes nothing, and the error names one of the two that is so |
| Plugin.RestartKnows | cmd/dra-rt-kubeletplugin/state.go:251-300 | What was written can be rebuilt if and only if every claim has devices and every identifier in use is some CPU's index |
| Plugin.RestartRoundTrip | cmd/dra-rt-kubeletplugin/state.go:251-300 | If it can, rebuilding keeps the claims; it keeps each claim's CPUs and their order if and only if every CPU in use is enumerated under its own identifier |
| NodeDriver.NodeDriver.NodePrepareResource | cmd/dra-rt-kubeletplugin/driver.go:113-156 | One prepare is exactly the step `Prepare`. It reports names if and only if the object is fetched, the names can be made, the claim is prepared already or committed with CPUs and its spec file written, all prepared claims have devices, and the write is applied. It panics if and only if the allocation to be named has no CPUs, and then nothing has changed |
| NodeDriver.NodeDriver.PrepareClaim | cmd/dra-rt-kubeletplugin/driver.go:204-214 | Fetches the object and prepares the claim it has; names come back exactly if they were given and the claim is then prepared with devices |
| NodeDriver.NodeDriver.NodeUnprepareResource | cmd/dra-rt-kubeletplugin/driver.go:175-202 | One unprepare is exactly the step `Unprepare`. It succeeds if and only if the object is fetched, the claim is not prepared or has devices and its spec file can be deleted, all other claims have devices, and the write is applied; then neither the plugin nor the object lists the claim |
| NodeDriver.StartPlugin | cmd/dra-rt-kubeletplugin/driver.go:39-86 | One start: the object is fetched or created, declared not ready, rebuilt from, written back and declared ready, with exactly the object that leaves behind; it succeeds if and only if each of these does and every stored CPU is known |
| Ownership.StartUpIsSteps | cmd/dra-rt-kubeletplugin/driver.go:39-86 | A whole start, however it ends, is a sequence of steps of the joint machine |
| Ownership.PrepareEffect | cmd/dra-rt-kubeletplugin/driver.go:113-173 | What a prepare changes: the claim is recorded, on its committed CPUs with their shares, exactly if it is new, committed with CPUs and its file written; the object then lists what is prepared exactly if there are names, the claim is prepared, all have devices and the write is not rejected; a failed write unprepares it if its file can be deleted. Nothing else changes |
| Ownership.UnprepareEffect | cmd/dra-rt-kubeletplugin/driver.go:175-228 | What an unprepare changes: the claim goes exactly if it has devices and its file can be deleted; the object then lists what is left exactly if the claim is not prepared any more, all others have devices and the write is not rejected. Nothing else changes |
| Ownership.FailedPrepareForgets | cmd/dra-rt-kubeletplugin/driver.go:121-144 | Preparing again a claim that is prepared takes it away from the plugin if and only if its names were made, all claims have devices, the write back fails and the spec file is deleted; after a rejected write the object is unchanged, after a lost reply it lists all that the plugin had, this claim included |
| OwnershipLimits.RepeatedPrepareForgets | cmd/dra-rt-kubeletplugin/driver.go:137-143 | A run after which the object lists a claim that the plugin does not |
| Ownership.FieldOwnership | cmd/dra-rt-kubeletplugin/state.go:187-203 | No plugin step changes a committed claim, a ledger, a reservation or another node's object; no controller step changes what is prepared or allocatable |
| Ownership.NextKeepsJointInv | cmd/dra-rt-kubeletplugin/driver.go:113-228 | Every step of either process keeps the controller's invariant, and keeps each prepared claim backed by a committed one, share by share; where CPUs are indexed by identifier, also CPU by CPU in order |
| Ownership.PreparedWithinLedger | cmd/dra-rt-kubeletplugin/state.go:205-224 | In every joint run, on every CPU, the prepared load, in the object and in the plugin's memory, is at most the committed ledger, which is below the threshold, whatever the enumeration's positions |
| Ownership.RestartGetsThrough | cmd/dra-rt-kubeletplugin/state.go:251-274 | Where every identifier is some CPU's index, a restart in any reachable state knows every stored CPU and brings back every claim |
| Ownership.RestartNeverFails | cmd/dra-rt-kubeletplugin/state.go:251-274 | Where each CPU is indexed by its own identifier, a restart in any reachable state knows every stored CPU and brings back each claim on the CPUs it is committed on, in order |
| OwnershipLimits.RestartCanFail | cmd/dra-rt-kubeletplugin/state.go:260-264 | Where it is not, a run after which no start can succeed: a stored CPU is no index of the enumeration |
| Ownership.ReleaseNeedsUnprepare | cmd/dra-rt-controller/driver.go:278-281 | Releasing a claim leaves the prepared claims backed if and only if it was not prepared |
| Ownership.BackedLoad | cmd/dra-rt-kubeletplugin/state.go:205-224 | Claims backed one by one have their summed load covered |
| Cdi.WriteCgroupToCDI | cmd/dra-rt-kubeletplugin/cdi.go:173-214 | A claim with a non-empty list of CPUs and a cgroup gets names, from which a reader gets back its first CPU's runtime and period and all its identifiers in order; any other claim gets the error that tells what it lacks, and an empty list of CPUs is an index error |
| Cdi.BandwidthRead | cmd/dra-rt-kubeletplugin/cdi.go:188-191 | Reading the decimals after `runtime-` and `.period-` gives the runtime and the period |
| Cdi.JoinedRead | cmd/dra-rt-kubeletplugin/cdi.go:192-208 | Reading the hyphen-separated decimals gives the identifiers in order, negative ones included |
| Cdi.NamesDetermineClaim | cmd/dra-rt-kubeletplugin/cdi.go:190-208 | Equal name strings mean equal runtime, period and CPU sequence, for cpusets with one runtime and period, and any integer identifiers |
| Cdi.NamesNeedUniform | cmd/dra-rt-kubeletplugin/cdi.go:190-191 | A cpuset shares its names with the one that repeats its first runtime and period; the two differ exactly if it is not uniform |
| Cdi.JoinedDetermines | cmd/dra-rt-kubeletplugin/cdi.go:192-208 | The joined identifiers determine the sequence of identifiers |
| Decimal.AtoiOfItoa | cmd/dra-rt-controller/rt.go:223-229 | A CPU identifier survives being written as a ledger key and read back |
| Decimal.DigitsArePositional | cmd/dra-rt-kubeletplugin/cdi.go:198-198 | Written digits are decimal, most significant first, without a leading zero |
| Decimal.ItoaEnds | cmd/dra-rt-kubeletplugin/cdi.go:198-198 | A decimal number followed by a separator can be split off in one way only |
| Bandwidth.LoadTruncates | cmd/dra-rt-controller/rt.go:213-213 | The ledger's sum is below the exact rational bandwidth by less than one per mille for each claim on the CPU, and equal to it if and only if every share is whole |
| Bandwidth.RealBandwidth | cmd/dra-rt-controller/rt.go:253-256 | In every reachable state the exact bandwidth on a CPU without base load is below 949 plus the number of claims there, at most 949 if the shares are whole, and below a full CPU for up to 51 claims |
| Bandwidth.ZeroShareIsFree | cmd/dra-rt-controller/rt.go:253-266 | The scheduler admits a claim with a zero share on any node below the threshold with enough CPUs, and its vector does not change |
| Overload.OverloadedExactlyFrom | cmd/dra-rt-controller/rt.go:253-256 | No run hands out a whole CPU or more to N claims if and only if N is at most 51 |
| Overload.FillingRun | cmd/dra-rt-controller/rt.go:202-240 | Any sequence of claims for one CPU whose truncated shares sum to less than 950 is reserved in some run |
| Overload.FillingLoads | cmd/dra-rt-controller/rt.go:213-213 | What the ledger counts for such claims and what they really take |
| Overload.TinyClaims | cmd/dra-rt-controller/rt.go:213-213 | For every n some run reserves n claims on one CPU with no load on the ledger and a real bandwidth of 0.9995 n per mille |

## Left out

- Clientsets, informers, the HTTP server, the command line, logging and generated deep-copy code. The API server is a map from nodes to objects whose requests may fail.
- The retry loop of `Client.Update` and the plugin's `RetryOnConflict`: a retried operation is one step or several. That an update may overwrite a change made since the object was read is excluded by an assumption, not modelled.
- CDI registry and spec files, `GetClaimDevices` beyond its failing without names, and the enumeration of CPUs by gopsutil: operations that may fail, or inputs.
- `allocatedUtil` and `preparedCgroups` of the plugin's device state, which nothing reads.
- `PerCoreMutex`, `utilLock`, `Visit`, `GetUtil` and `ExistsUtil`, which influence no allocation.
- Class parameters, API-group validation, the random identifier generator and the cgroup file code.
- Freedom from deadlock: `Get` takes a read lock it already holds.
- Integer overflow of 64-bit products and sums, and non-positive periods, on which the Go code divides by zero or rounds toward zero.
- In `Interleaving.dfy`: the shadow utilisation, which influences no step there, and the time between a plugin's creating its object and filling it, in which the controller does nothing on the node.
- What becomes of the process after a nil dereference; the thread in question makes no further step.
- Aliasing of Go slices and maps between the fetched object and the pending store; nothing mutates a shared cpuset, so values are equivalent.
- A claim committed without CPUs in the class model: `Driver.Driver.Valid` excludes it, because it takes two operations at once to make one (see Findings).
