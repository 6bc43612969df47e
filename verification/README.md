# uni-share: a verified model

uni-share lets several pods share one GPU or MLU. A daemon on each node places
pods on devices and writes a quota file for every container; a library
preloaded into the container reads that file and throttles kernel launches.
This project models the parts where those promises are decided, and proves
them for all inputs and all interleavings. `dafny verify dfyconfig.toml`
checks it.

- **Compute throttle** (`Arith`, `Feedback`, `IntWidth`, `GpuSampling`,
  `TokenBucket`, `TokenRefinement`, `TokenRate`, `TokenWidth`). The feedback
  step is integer arithmetic with truncating division; the bucket is a machine
  whose steps are the single reads, compare-and-swaps and stores of one
  controller and any number of launchers. The machine refines an atomic bucket;
  level, share, launch rate, recovery from debt and convergence of the share are
  bounded over whole runs. A closed-form condition says exactly when the step is
  exact in 32 bits; under it the 32-bit machine has the same runs. What a step, a
  sample and a tick compute is stated in numbers, without the model's own names.
- **Placement** (`Pods`, `PodMatching`, `GpuAccounting`). Which pending pod an
  allocation is for, the best-fit choice of a device, and the charge of its
  record.
- **Handshake** (`PodMaps`, `EventQueue`, `Handshake`, `FileLoop`,
  `ManagerRules`, `DeviceQuota`, `HandshakeRuns`). The pod manager's maps as an object and as values, its event
  queues, and the whole annotation protocol as a machine: every goroutine is a
  sequence of atomic steps, the API server is shared state. A quota file holds
  the full quota of its pod or, once the pod's entries have been deleted,
  possibly zero, and never a part of it; and no container of a listing is left
  without one by a goroutine that comes to the end of its loop. Take one file of each distinct pod
  placed on a device: over every interleaving their quotas stay together within
  the device's combined capacity, and within each axis if the labels match or
  every pod asks equal amounts of both. Every container of a pod gets its own
  file with the whole pod's quota, so these sums count a pod once, not its
  containers.
- **Cgroup identity** (`CString`, `CgroupPath`, `CgroupParser`, `MountLine`,
  `ConfigPath`). The Go printer of a container's cgroup path, the C parser that
  recovers pod uid and container id from it by in-place edits of char buffers,
  the cgroup v2 parser of a mount line, and the path of the quota file built from
  what they find. End to end, a container reads exactly the quota that the
  handshake filed for it.

Where the code and its intent disagree, the model follows the code:

- `GetGpuResource` reads the core axis into the fields named mem* and the
  memory axis into those named core*, then charges the right axes
  (messenger.go:104-107, 135-140). `Labels` has both readings. As written the
  two axes together are never oversold (`CombinedSlackKept`,
  `CombinedQuotaBound`) but one axis can be, end to end
  (`AsWrittenOversellsDevice`). On the records the daemon writes, the requests it
  always serves safely are exactly those asking equal amounts of both and those
  no card of 100 cores can be chosen for (`AsWrittenSafeIff`).
- The scan for the smallest slack starts at 99999 with candidate 0
  (messenger.go:122-123): if every feasible device has at least that much slack,
  device 0 is charged, feasible or not (`SentinelPicksInfeasible`). The choice is
  the best fit exactly when some feasible device is below the sentinel or device
  0 happens to be the best fit (`ChoosesBestFitIff`).
- The pod manager reads the GPU memory and MLU limits by JSON paths with an
  unescaped dot (const.go:7-10, manager.go:330, 335-337), although the same file
  escapes it for GPU cores (manager.go:328). An unescaped dot steps into a nested
  object, so the limit is not found: memory quotas and MLU quotas are zero
  (`ManagerAndAllocatorAgree`, `MluQuota`). `Paths` has both readings, and all
  results of the handshake hold for both.
- Even with escaped paths a container that limits GPU memory without GPU cores
  is charged for the memory but not granted it (`ManagerAndAllocatorAgree`).
- A goroutine that has listed a pod's containers before the pod's entries are
  deleted writes a quota file of zero after it (`LateWriterFilesZero`).
- `reqDevCount` and `flag` are never reset between pods (vcore.go:92, 95), and the
  devices of one container (vcore.go:88-89) are compared with the total of all
  containers of a pod (vcore.go:110-114). A container's request confirms its own
  pod exactly when no earlier pending pod and no other container of the pod asks
  for cores (`ConfirmsRequesterIff`). A pod with containers of 30 and 20 cores is
  confirmed by neither request (`SplitPodMismatches`); if it is the only one that
  asks for cores it is never served (`SoleAskerServedIff`).
- Outside its range the 32-bit step turns the controller around: on 40
  multiprocessors of 1024 threads with a quota of 50, five or six processes at
  full load should bring the share to zero and raise it by more than 41 million
  instead, past the whole accelerator (`OverflowRaisesShare`, `RunsPart`).
- A goroutine that fetched a pod before it was marked assigned writes its older
  copy of the annotations back, and the mark is lost although the device stays
  charged (`MarkCanBeLost`).
- A pod removed before it carries the assigned annotation is never forgotten:
  only marked pods are (`OnlyMarkedPodsAreForgotten`).
- On hardware so small that the least step truncates to zero the share never
  reaches the total (`ReachesFullShareIffStepPositive`).
- `get_cgroupV2_data` reports success even when no line matches
  (contInfoReg.c:69), as on a table with only the root mount
  (`SuccessWithoutIdentity`); there is an identity exactly when some line has
  both marks (`MountFoundIff`).
- Nothing lowers a record's used amounts when a pod is deleted; charges only grow.

The proofs rest on these assumptions about runs: the daemon is not restarted, pod
uids are not reused, a pod starts without the two annotations (or with
`gpu-assigned` false), only these components write them, and calls of
`GetGpuResource` are serial. Only the GPU core and memory servers are registered
(factory.go:25-28): the `Allocate` of `vMluCore.go` marks pods assigned without
charging a record (vMluCore.go:165), so registering it would break "assigned
means charged". The safety results allow any allocation request; the runs that
are shown to exist contain only requests for the devices of one container of a
listed pod, and take for granted that kubelet has that many devices to hand out. Pod updates replace the whole annotation set and
may overwrite each other or fail; nothing is assumed about their order.

Beside the results of the table, small lemmas fix single values and steps that no
result about runs would tell apart: `BoostExample`, `CreditWraps`,
`TruncDivExact`, `QuotaOfContainer`, `ClassIsLowerCase`, and for the goroutines
`FailedCallChangesNothing`, `FailedAllocationChangesNothing`, `EndedStays`,
`UnannotatedIsDropped` and `RemovalDecides`.

## Model

| member | source | states |
|---|---|---|
| `Feedback.BoostNeverShrinks` | core/controller/pc_alg.c:116-118 | past half the quota the rescaled step is never below the plain one |
| `Feedback.StepMonotone` | core/controller/pc_alg.c:111-118 | a wider utilisation gap never gives a smaller step, also across the rescaling threshold |
| `Feedback.DeltaInRange` | core/controller/pc_alg.c:110-128 | the new share stays in 0..total and moves by at least the least step unless it is clipped |
| `Feedback.DeltaMonotone` | core/controller/pc_alg.c:90-128 | the new share is non-increasing in the measured utilisation and non-decreasing in the old share, also across the quota |
| `Feedback.GpuDeltaValue` | core/controller/pc_alg.c:110-128 | the new share of a GPU in numbers: base is sm * sm * threads * gap over 2560 rounded down, the step is base * gap * 2 over limit + 1 rounded down when the gap is more than half the quota, and the share moves by it toward the quota, clipped at sm * threads * 32 and 0 |
| `Feedback.MluDeltaValue` | core/controller/pc_alg.c:90-108 | the same for an MLU of 256 threads a core and divisor 256 |
| `Feedback.Converges` | core/controller/pc_alg.c:66-87 | after ceil(total / least step) ticks the share is the total if all samples were in [limit/10, limit], and 0 if all were above the limit |
| `Feedback.MluBound` | core/monitor/monitor_mlu.c:22-44 | for an MLU the least step is 5 times the squared core count and the bound is ceil(8192 / (5 cores)) |
| `Feedback.ReachesFullShareIffStepPositive` | core/controller/pc_alg.c:110-128 | samples at the quota bring the share from 0 to the total if and only if weight times 5 reaches the divisor |
| `IntWidth.ExactStepAgrees` | core/controller/pc_alg.c:110-128 | if every intermediate value fits a 32-bit int, the wrapped evaluation equals the mathematical step |
| `IntWidth.RangeConditionExact` | core/controller/pc_alg.c:110-128 | a closed-form condition holds if and only if no sample up to a bound and no share in range overflows anywhere in the step |
| `IntWidth.TeslaT4Range` | core/monitor/monitor_gpu.c:31-85 | on 40 multiprocessors of 1024 threads, four process records are always in range and six never are |
| `IntWidth.OverflowRaisesShare` | core/controller/pc_alg.c:110-128 | on that hardware with a quota of 50, samples of five and of six full processes make the 32-bit step raise the share by 41799358 and 41430822 where the mathematical one sets it to zero |
| `IntWidth.ProductsWrap` | core/controller/pc_alg.c:114 | on any hardware the two 32-bit products are the mathematical ones modulo 2 to the 32 |
| `GpuSampling.TotalLoadBound` | core/monitor/monitor.h:13-14 | the load of n process records is at most 270 n |
| `GpuSampling.FullLoad` | core/monitor/monitor.h:13-14 | that bound is attained by n records of 100, 100 and 100 percent |
| `GpuSampling.RecordLoad` | core/monitor/monitor_gpu.c:75-85 | a record in the window adds its compute percentage plus 85 percent of its codec percentages, rounded down |
| `GpuSampling.UnfilledAddsNothing` | core/monitor/monitor_gpu.c:75-85 | a percentage above 100 adds nothing, nor does a record from before the window |
| `GpuSampling.LoadsAddUp` | core/monitor/monitor_gpu.c:75-85 | the loads of two buffers add up |
| `GpuSampling.GetGpuUtilisation` | core/monitor/monitor_gpu.c:73-91 | the unsigned accumulation loop returns the total load of the records in the window, which cannot wrap below 15 million records |
| `GpuSampling.SampledStepAgrees` | core/controller/pc_alg.c:78-83 | from records to new share the 32-bit computation is the mathematical one under the range condition for their number |
| `TokenBucket.LevelAndShareBounded` | core/controller/pc_alg.c:130-163 | with kernels up to g, every reachable level is in [-g, total] and every reachable share in [0, total], over all interleavings |
| `TokenBucket.DebtBoundIsTight` | core/controller/pc_alg.c:144-163 | the level -g is reachable |
| `TokenBucket.SampleDecides` | core/controller/pc_alg.c:78-86 | a sample used with 10 (used + 1) at most the quota leaves the share alone and has the level overwritten; any other sample becomes a new share to credit |
| `TokenBucket.TokenArithmeticIsExact` | core/controller/pc_alg.c:134-161 | in no reachable state can the sum or the difference before a compare-and-swap overflow |
| `TokenRefinement.Refines` | core/controller/pc_alg.c:66-163 | the interleaved machine computes the level of an atomic bucket with capped add, overwrite and decrement, never decremented while negative |
| `TokenRefinement.EachLaunchSpendsOnce` | core/controller/pc_alg.c:144-163 | per thread, the sizes spent followed by the one in flight are exactly the sizes asked for, in order |
| `TokenRefinement.EachTickActsOnce` | core/controller/pc_alg.c:66-142 | each decision of the controller becomes exactly one atomic credit or overwrite of the decided amount, in order |
| `TokenRate.Conservation` | core/controller/pc_alg.c:130-163 | blocks launched in any window are start level plus real gains minus end level |
| `TokenRate.RateBound` | core/controller/pc_alg.c:66-163 | between any two points of one run the blocks launched are at most the level at the first, plus shares credited, plus total + g per overwrite, plus g |
| `TokenRate.DebtNeverDeepens` | core/controller/pc_alg.c:152-161 | while the level is negative no launcher changes it, an overwrite ends the debt, a credit adds the whole share |
| `TokenRate.CreditsEndDebt` | core/controller/pc_alg.c:70-161 | from any reachable debt, a run with an overwrite, or with k fresh credits where the sum of min(total, j inc) for j up to k covers g, has reached a non-negative level |
| `TokenRate.RetriesAtMostOnce` | core/controller/pc_alg.c:130-142 | while the level stays negative the controller's compare-and-swap fails at most once, whatever the launchers do |
| `TokenRate.DebtIsPaced` | core/controller/pc_alg.c:66-142 | while the level stays negative the controller's own steps are three per completed credit, up to its phases at both ends |
| `TokenRate.Recovers` | core/controller/pc_alg.c:70-161 | any reachable debt is over before the controller has taken 3k + 3 steps of its own, where k rungs min(total, j inc) cover g; neither the retry loop's success nor anything about launchers is assumed |
| `TokenRate.RecoversWithin` | core/controller/pc_alg.c:70-161 | 3g + 3 controller steps always suffice when the least step is positive |
| `TokenRate.ShareFollowsSamples` | core/controller/pc_alg.c:66-87 | over any interleaving the share is the fold of the feedback step over the samples of the crediting ticks |
| `TokenRate.ShareSettles` | core/controller/pc_alg.c:66-87 | over any interleaving the share settles at the total or at 0 within ceil(total / least step) such ticks |
| `TokenRate.NoLowSampleNoOverwrite` | core/controller/pc_alg.c:66-87 | a run none of whose samples is below a tenth of the quota overwrites nothing but what was decided before it, and every sample is a tick |
| `TokenRate.SamplesSettle` | core/controller/pc_alg.c:66-87 | counting all samples taken: if all lie between a tenth of the quota and the quota, the share is the total within ceil(total / least step) of them; if all lie above, zero; in neither case is the level overwritten |
| `TokenWidth.RunsAgree` | core/controller/pc_alg.c:66-163 | over every interleaving the machine computing in 32-bit ints goes through the states of the mathematical one, under the closed-form range condition |
| `TokenWidth.RunsPart` | core/controller/pc_alg.c:66-87 | out of range the two machines part after one sample |
| `GpuAccounting.ChooseDevice` | k8sPlugins/podWatch/messenger.go:113-129 | the two loops compute the choice function characterised below |
| `GpuAccounting.ChoiceCharacterised` | k8sPlugins/podWatch/messenger.go:113-129 | refusal if and only if no device is feasible; lowest-index least-slack feasible device when one is below the sentinel; device 0 otherwise |
| `GpuAccounting.ChoosesBestFitIff` | k8sPlugins/podWatch/messenger.go:113-129 | when some device is feasible, the best fit is chosen if and only if a feasible one is below the sentinel or device 0 is the best fit |
| `GpuAccounting.SentinelPicksInfeasible` | k8sPlugins/podWatch/messenger.go:101-129 | as written, next to a fully charged 100-core card a fresh card with combined slack 99999 is the only feasible one, and the full card is chosen |
| `GpuAccounting.SentinelIsExact` | k8sPlugins/podWatch/messenger.go:122-129 | with one block less the fresh card is chosen |
| `GpuAccounting.GpuStore.GetGpuResource` | k8sPlugins/podWatch/messenger.go:94-148 | the outcome and the whole new store for success, refusal and failed update |
| `GpuAccounting.GrantIsLocal` | k8sPlugins/podWatch/messenger.go:130-147 | a grant charges one feasible device and changes no other record; a refusal changes none |
| `GpuAccounting.UsedIsSumOfGrants` | k8sPlugins/podWatch/messenger.go:135-140 | over every history the total used grows by exactly the sum of the granted requests, per axis |
| `GpuAccounting.CombinedSlackKept` | k8sPlugins/podWatch/messenger.go:113-141 | under either labelling no history drives a device's combined slack below zero |
| `GpuAccounting.AxesKept` | k8sPlugins/podWatch/messenger.go:113-141 | neither axis is oversold under matched labels, nor as written when requests ask as much core as memory |
| `GpuAccounting.AsWrittenOversells` | k8sPlugins/podWatch/messenger.go:101-112 | on two fresh cards of 100 cores, three requests for 140 cores in all go to the first and leave the second free |
| `GpuAccounting.AsWrittenSafeIff` | k8sPlugins/podWatch/messenger.go:101-140 | as written a request keeps every axis-safe store that some history makes of fresh 100-core records axis-safe, if and only if it asks equal amounts, more memory than 100 blocks or more cores than 99898 |
| `PodMatching.ConfirmPod` | k8sPlugins/pluginRegister/vcore.go:91-118 | returns the first pod, from the first core-limited one on, whose never-reset running total is the device count, and none only if there is none |
| `PodMatching.NeverConfirmsUnlimitedPod` | k8sPlugins/pluginRegister/vcore.go:95-118 | for a positive count the confirmed pod has a core limit |
| `PodMatching.ConfirmsRequesterIff` | k8sPlugins/pluginRegister/vcore.go:88-118 | the request for the devices of one container confirms its own pod if and only if no earlier pending pod and no other container of the pod asks for cores |
| `PodMatching.SplitPodMismatches` | k8sPlugins/pluginRegister/vcore.go:88-118 | one pending pod of 30 and 20 cores is confirmed by the request of neither container |
| `PodMatching.MatchesExact` | k8sPlugins/pluginRegister/vcore.go:91-118 | the loops confirm at most one pod, and exactly the one described |
| `PodMatching.SoleLimitedPodConfirmed` | k8sPlugins/pluginRegister/vcore.go:91-118 | a sole core-limited pending pod is confirmed exactly for its own total |
| `PodMatching.RunningTotalMismatches` | k8sPlugins/pluginRegister/vcore.go:108-118 | pods of 30 and 20 cores: 50 confirms the second, 20 confirms none |
| `PodMaps.ManagerAndAllocatorAgree` | k8sPlugins/resourceManager/manager.go:316-346 | for a GPU pod the manager's core total is the one the allocator charges; its memory total never exceeds it, equals it with escaped paths if and only if no container limits memory without cores, and is zero as written |
| `PodMaps.MluQuota` | k8sPlugins/resourceManager/manager.go:316-346 | an MLU pod is given its MLU core and memory totals with escaped paths, and nothing as written |
| `PodMaps.QuotasAddUp` | k8sPlugins/resourceManager/manager.go:316-346 | the quotas of the containers of a pod add up, also when GPU and MLU limits are mixed |
| `PodMaps.VirtualManager.RecordContainers` | k8sPlugins/resourceManager/manager.go:246-268 | the three container maps after recording all started containers, whether there was one, and that consistent maps stay consistent |
| `PodMaps.VirtualManager.Store` | k8sPlugins/resourceManager/manager.go:316-351 | the pod's summed core and memory limits are stored, every other map unchanged, consistency kept |
| `PodMaps.VirtualManager.DeletePod` | k8sPlugins/resourceManager/manager.go:385-404 | all eight maps after the locked section of a deletion, and consistency kept |
| `PodMaps.RecordKeepsConsistent` | k8sPlugins/resourceManager/manager.go:246-268 | recording keeps uid-by-name a partial inverse of name-by-uid and every listed uid named, with repeated uids and shared names |
| `PodMaps.RecordListsStarted` | k8sPlugins/resourceManager/manager.go:246-268 | recording appends to the pod's list the uids of the started containers, in order, and changes no other list and none of the other five maps |
| `PodMaps.RecordNamesStarted` | k8sPlugins/resourceManager/manager.go:246-268 | a started uid maps to the name it came with last and a started name to the uid it came with last; all others keep what they had |
| `PodMaps.DeleteKeepsConsistent` | k8sPlugins/resourceManager/manager.go:385-404 | deletion keeps the same consistency |
| `PodMaps.DeleteIsExact` | k8sPlugins/resourceManager/manager.go:385-404 | a deleted pod leaves only its cleared visited flag, and other pods keep their names, uid lists and requests |
| `PodMaps.AlwaysConsistent` | k8sPlugins/resourceManager/manager.go:105-117 | any interleaving of the critical sections keeps the maps consistent |
| `PodMaps.MapsFollowHistory` | k8sPlugins/resourceManager/manager.go:105-117 | after any sequence of critical sections the maps hold, for each pod, exactly the containers recorded, the requests stored and the marks set since its last deletion |
| `PodMaps.DeletionForgetsAll` | k8sPlugins/resourceManager/manager.go:385-404 | every uid recorded for a visited pod since its last deletion has a name before the next one and none after it |
| `EventQueue.NothingLostOrReordered` | k8sPlugins/resourceManager/manager.go:139-157 | handled, in-hand and queued events are the enqueued ones in order, and the head read without the lock is the one dropped with it |
| `EventQueue.EachEventEnqueuedOnce` | k8sPlugins/podWatch/pod_mgr.go:39-52 | what a producer enqueued, then what it carries, is what it was given |
| `EventQueue.AllCanBeHandled` | k8sPlugins/resourceManager/manager.go:139-157 | nothing gets stuck: from every reachable state some run handles every event enqueued so far and empties the queue |
| `EventQueue.GivenCanBeEnqueued` | k8sPlugins/podWatch/pod_mgr.go:39-52 | a producer waiting for the lock with an event can come to enqueue it |
| `Handshake.FilesCarryFullQuota` | k8sPlugins/resourceManager/manager.go:220-301 | over every interleaving a quota file holds its pod's full summed limits or zero, never a part, and zero only once the pod's entries have been deleted; the pod was charged and marked assigned before |
| `Handshake.MarksAreOrdered` | k8sPlugins/resourceManager/manager.go:303-369 | a ready mark implies the stored request, an assigned mark implies a charge and the stored request |
| `Handshake.ConfigOfExact` | k8sPlugins/resourceManager/manager.go:410-433 | the file keeps the memory quota times 268435456 modulo 2 to the 64, and the core quota modulo 2 to the 32 |
| `FileLoop.EveryListedIsAttempted` | k8sPlugins/resourceManager/manager.go:272-300 | over every interleaving a goroutine past the loop has attempted the file of each container it listed, once and in order |
| `FileLoop.EveryListedIsFiled` | k8sPlugins/resourceManager/manager.go:272-300 | and, unless the pod's entries have been deleted, each successful attempt has left the pod's full quota under the container's own key, its id under v1 and its name under v2 |
| `FileLoop.EveryStartedIsFiled` | k8sPlugins/resourceManager/manager.go:246-300 | the same for each started container in the statuses the goroutine recorded |
| `ManagerRules.OnlyRequestingPods` | k8sPlugins/resourceManager/manager.go:173-192 | over every interleaving only pods with a requesting container are visited, recorded, stored, marked ready, charged or filed |
| `ManagerRules.PodWithoutRequestsIsLeftAlone` | k8sPlugins/resourceManager/manager.go:173-192 | in particular a pod none of whose containers declares requests never gets a mark, a charge or a file |
| `ManagerRules.HandledOnce` | k8sPlugins/resourceManager/manager.go:220-308 | once a pod is visited no goroutine started later registers it again, and once it is done none fills its files again, until a removal of it is handled |
| `ManagerRules.OnlyMarkedPodsAreForgotten` | k8sPlugins/resourceManager/manager.go:372-389 | entries are deleted only for pods removed while carrying the assigned annotation |
| `ManagerRules.HandedInOrder` | k8sPlugins/resourceManager/manager.go:133-160 | every change and every removal seen is handed to a goroutine once, in the order seen, or still queued |
| `DeviceQuota.LedgerKept` | k8sPlugins/pluginRegister/vcore.go:142-153 | over every interleaving each record is its first version plus the charges made to it, and stays sound |
| `DeviceQuota.TenantQuota` | k8sPlugins/resourceManager/manager.go:410-433 | a placed pod's quota file holds its core request and its memory quota in bytes, truncated by neither field's width, or zero on both once its entries have been deleted; the memory quota is at most the request, and when it is the request |
| `DeviceQuota.CombinedQuotaBound` | k8sPlugins/podWatch/messenger.go:94-148 | as written, the utilisation and memory quotas in the files of distinct pods placed on a device, deleted or not, stay together within the device's combined free capacity; so do utilisation quotas and memory requests |
| `DeviceQuota.FilesWithinRequests` | k8sPlugins/resourceManager/manager.go:410-433 | the quota files of distinct pods on a device sum to at most their requests, to exactly their core requests while none is deleted, and to exactly their memory requests when the manager finds every memory limit |
| `DeviceQuota.AxisQuotaBound` | k8sPlugins/pluginRegister/vcore.go:142-214 | with matched labels or balanced pods the utilisation quotas of distinct pods placed on a fresh device of 100 cores, deleted or not, sum to at most 100, and the memory quotas to at most its free memory |
| `HandshakeRuns.Completes` | k8sPlugins/resourceManager/manager.go:167-369 | from every reachable state a pod not yet created, that some device can take and that the request of one of its containers confirms, has a run to the end of its handling, with one charge, and a full quota file for each of any started containers and for nothing else |
| `HandshakeRuns.SoleAskerServedIff` | k8sPlugins/pluginRegister/vcore.go:83-219 | when only one pod asks for cores and a device can take it, some run with container requests gives it a quota file if and only if all its cores are asked by one container |
| `HandshakeRuns.LateWriterFilesZero` | k8sPlugins/resourceManager/manager.go:270-298 | from every reachable state a pod as for `Completes` also has a run, through its deletion, to a quota file of zero: under its container id on cgroup v1, under the empty name on v2 |
| `HandshakeRuns.MarkCanBeLost` | k8sPlugins/resourceManager/manager.go:355-369 | such a pod also has a run in which it is charged and marked assigned and then loses the mark to an older copy of its annotations |
| `HandshakeRuns.AsWrittenOversellsDevice` | k8sPlugins/podWatch/messenger.go:101-140 | a run of the whole handshake on two fresh cards, labels as written, after which three live pods hold 140 percent of the first and the second is free; they ask for no more devices than the plugin advertises |
| `CgroupPath.PrintThenParse` | k8sPlugins/resourceManager/util.go:61-93 | for the three classes the printed path parses to the uid with underscores as dashes and the id after its last dash |
| `CgroupPath.RoundTripIff` | k8sPlugins/resourceManager/util.go:61-93 | the round trip is the identity if and only if the uid has no underscore and the id no dash |
| `CgroupPath.UnknownClassFails` | k8sPlugins/resourceManager/util.go:73-92 | for any other non-empty class the parser reports failure |
| `CgroupPath.CgroupfsRoundTrip` | core/container/contInfoReg.c:128-213 | a cgroupfs path ending in /pod<uid>/<id> gives back uid and id |
| `CgroupPath.MemoryPathOfTokens` | core/container/contInfoReg.c:105-113 | on a line of any tokens joined by colons the memory path is the token after the first "memory" |
| `CgroupPath.NoMemoryToken` | core/container/contInfoReg.c:105-113 | a line without the token "memory" has no memory path |
| `CgroupPath.FoundIff` | core/container/contInfoReg.c:128-213 | exactly which paths give an identity: two slashes, and for a scope a dash before ".scope" and "-pod" before ".slice" |
| `CgroupParser.MemoryToken` | core/container/contInfoReg.c:105-113 | the destructive tokeniser leaves a pointer to the token after the first "memory", or reports none |
| `CgroupParser.ScanSlashes` | core/container/contInfoReg.c:128-137 | the scan returns the last slash and the one before it |
| `CgroupParser.TrimContainerInPlace` | core/container/contInfoReg.c:180-194 | after the overlapping move the buffer holds exactly what followed the last dash; failure if and only if there is none |
| `CgroupParser.MoveSuffix` | core/container/contInfoReg.c:201-203 | the buffer holds exactly the suffix although the move leaves out the terminator and the length is taken again from the overwritten position |
| `CgroupParser.TrimPodInPlace` | core/container/contInfoReg.c:196-210 | the buffer holds what followed the first "-pod", underscores as dashes; failure if and only if there is none |
| `CgroupParser.DropPodInPlace` | core/container/contInfoReg.c:211-213 | the cgroupfs branch drops exactly four characters, and a shorter segment becomes empty |
| `CgroupParser.GetCgroupData` | core/container/contInfoReg.c:77-221 | succeeds if and only if the string-level parser finds an identity, and then both buffers hold it NUL-terminated; asked of the file only that the one move at line 194 stays inside the buffer |
| `MountLine.GetStr` | core/container/contInfoReg.c:17-37 | copies the text between the marks and the name up to the next slash; without both marks it touches nothing |
| `MountLine.GetCgroupV2Data` | core/container/contInfoReg.c:40-75 | the first line with both marks decides the buffers, nothing is asked of the lines after it; without one the buffers are untouched and the result is still 0 |
| `MountLine.FirstMountIsLeast` | core/container/contInfoReg.c:57-66 | the mount found is that of the least line with both marks |
| `MountLine.MountFoundIff` | core/container/contInfoReg.c:57-69 | an identity is found if and only if some line has both marks |
| `MountLine.SuccessWithoutIdentity` | core/container/contInfoReg.c:57-69 | a concrete mount table on which nothing is found |
| `MountLine.MountFileRoundTrip` | core/container/contInfoReg.c:40-75 | a line with the two marks gives back exactly uid and name from within a whole file, after unmarked lines and before any lines |
| `MountLine.MountRoundTrip` | core/container/contInfoReg.c:17-37 | a line built from the two marks gives back exactly uid and name |
| `ConfigPath.GetPathByCgroup` | core/container/contInfoReg.c:247-282 | fails if and only if the v1 parser does, and otherwise leaves in the path buffer the path built, and cut at 511 characters, from the key found |
| `ConfigPath.HostFileInjective` | k8sPlugins/resourceManager/manager.go:274-292 | different containers have different quota files, also when a name is empty |
| `ConfigPath.LongKeyIsCut` | core/container/contInfoReg.c:259-272 | with a key beyond 481 characters the path is cut to 511 |
| `ConfigPath.PrintedFileFound` | core/container/contInfoReg.c:77-221 | a v1 cgroup file holding the path printed for a container can be parsed with every move defined, and gives exactly its pod uid and id |
| `ConfigPath.MountedFileFound` | core/container/contInfoReg.c:40-75 | the same under v2 for a file holding the mount line of a container |
| `ConfigPath.ContainerReadsItsQuota` | core/container/contInfoReg.c:247-314 | over every run of the handshake, a container whose cgroup file leads to its key reads through its pod's mount exactly the file written for it, which holds its full quota, or zero once its pod's entries have been deleted |
| `ConfigPath.PrintedContainerReadsItsQuota` | k8sPlugins/resourceManager/util.go:61-93 | the same from the printed path on, under v1 |

## Left out

- CgroupParser.GetCgroupData: a container segment, cut at `.scope`, whose last dash offset + 1 + length exceeds the buffer is excluded, because the move at contInfoReg.c:194 then reads past its end and C gives it no meaning; opening the file and its `feof` state are not modelled, a file is its sequence of `fgets` lines.
- CgroupParser.TrimContainerInPlace: the same strings are excluded, for the same reason.
- MountLine.GetStr: lines with both marks whose end mark precedes the prefix, or with no slash after the name, are excluded, because the pointer differences at contInfoReg.c:27 and 32 are then undefined in C; so are a uid or name longer than the buffers.
- MountLine.GetCgroupV2Data: the same lines are excluded, up to and including the first with both marks.
- CgroupPath.PrintThenParse: `filepath.Join`'s cleaning is modelled as the identity, which it is for a uid without slashes; uids and ids with slash, colon or dot are not covered.
- TokenBucket.LevelAndShareBounded: the two compare-and-swap loops and the plain store are steps of a machine with program counters instead of `while` loops, since only single accesses are atomic; memory is sequentially consistent, the grid product passed to `rate_limiter` does not wrap, and sleeping is a stuttering step.
- TokenRate.Recovers: counts the controller's own steps, not time; that the scheduler lets the controller take them is not modelled.
- Handshake.FilesCarryFullQuota: unlocked map and slice reads are atomic steps; data races of the Go memory model are not modelled.
- PodMaps.MluQuota: what the JSON path library makes of an unescaped dot is taken from the escapes in the same file; the library is not part of this model.
- DeviceQuota.AxisQuotaBound: with escaped paths pods mixing GPU and MLU limits are excluded, since the manager then adds MLU cores the allocator does not charge; the containers of one pod are not added up, since each gets the whole quota of the pod.
- PodMaps.VirtualManager.RecordContainers: the `docker://` prefix of a container id is taken as already split off; an id without it stops the daemon.
- HandshakeRuns.Completes: a pod created before is not covered, nor statuses that show one container under two names. Requests for init containers, which the matching loops do not look at, are not among the requests of the runs shown to exist.
- HandshakeRuns.SoleAskerServedIff: a pod that another pod's request is taken for is not covered.
- PodMaps.ManagerAndAllocatorAgree: limits are integers. `strconv.ParseInt` (manager.go:331-340) fails, and counts zero, for an amount Kubernetes prints with a suffix, such as "1k", while the allocator's `Value()` reads it.
- ConfigPath.ContainerReadsItsQuota: pods and keys are names without a slash, and keys of 1 to 481 characters; the mount is the one `Allocate` makes for the pod; reading and writing the struct itself is not modelled.
- GpuAccounting.GpuStore.GetGpuResource: the second fetch of the chosen record by name is the record itself, names being unique; used amounts are integers, not decimal strings.
- IntWidth.RangeConditionExact: the driver's attribute and utilisation calls are inputs; `get_mlu_uti` has no accumulation beyond a plain sum and is an arbitrary sample.
- Device plugin responses (mounts, environment, device nodes), device listing, kubelet registration and restart handling: plumbing without state of their own.
- Intercepted CUDA and CNRT entry points and the MLU memory comparison: pass-through wrappers around driver counters.
- `vmemory.go` and `vMluMemory.go`: their `Allocate` answers with an empty response. `vMluCore.go` is not registered; its matching loops are those of `vcore.go`, and its uncharged mark is the assumption above.
- JSON encoding, the API client, the file system and cgroup version detection: replaced by maps, snapshots and a boolean.
