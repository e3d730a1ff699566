# Verified model of cluster-api-provider-elf

cluster-api-provider-elf is a Kubernetes controller that runs the nodes of a cluster as virtual machines on
SmartX ELF, driving them through the Tower API. This project models the protocols in its controllers and
proves what they keep, for every answer Tower, the workload cluster and other reconcilers may give.

Tower and Kubernetes are environment: what they answer is a parameter of each pass (`Answers`, with one flag
for each foreign error), and what they do between passes is a step of a run. Objects whose fields the
controllers update in place are classes; each method is proved to do what a function of the old state says,
the outer ones also to keep what is proved of a pass, and the properties over whole runs are proved about
those functions. The status of one machine is spread over three classes named `ElfMachine`, each with the
fields one protocol reads and writes.

- **GPU allocator** (`GpuDevices`, `GpuLocks`, `GpuSelect`, `GpuReuse`, `GpuReserve`, `GpuChoice`,
  `GpuProtocol`, `GpuRepeats`). Reconcilers filter, greedily select from views that may be old, and take a
  lock that counts again; locks expire after eight minutes. No interleaving overcommits a GPU, and a host that
  can serve despite the locks of others is used. This needs each machine to name each model or type once. What
  naming one twice does is proved exactly: when the lock overcommits (`GpuRepeats`), and that it is given up
  when it is looked at again, because the devices are counted by ID (`FreshLockReusableIff`).
- **Hot update** (`HotUpdate`, `HotUpdateMachine`, `HotUpdateRuns`, `HotUpdateProgress`, `HotUpdateNics`). The
  reason of one condition is the only program counter. For a fixed specification the stage never falls, every
  call waits for its saved reason, success means that all is there and followed up, and ten calm reconciles
  are enough. When compute is asked for between disk growth and the partition job, that job is skipped:
  `PartitionDebtLostIff` says exactly when. When NICs arrive one by one and are counted in between, some are
  never configured: `ConfiguresAllAddedIff` says exactly when.
- **Placement group** (`Hosts`, `PlacementGroup`, `PlacementMigration`, `PlacementEndings`,
  `PlacementMachine`, `PlacementRuns`). A control plane VM is migrated exactly when, by the pigeonhole
  principle, every other one is in the group on a host of its own; members that are up stay on distinct hosts
  in every run, and by the other paths exactly when the VM's host is free.
- **Task lifecycle** (`TaskStages`, `VMTasks`, `TaskRuns`, `VMTaskMachine`). One `TaskRef` serialises all
  tasks on the machine's VM, provided that Tower drops a temporary VM record only after the clone task has
  ended; the pass that breaks this otherwise is characterised exactly.
- **Shared cache** (`SharedCache`, `CacheTickets`, `CacheRetry`, `CacheSilence`). One string-keyed cache
  serves tickets, silence markers, retry throttling and cached objects. Group tickets are exclusive exactly
  for names that no other key family can spell, full-size retries are throttled, and the five-minute silence
  after a duplicate placement group is not kept, because other key builders can give the same key:
  `SilenceKeptIff` says exactly when it is.
- **Cloud-init** (`Lines`, `CloudInitHeaders`, `YamlTree`, `CloudInit`, `CloudInitLookups`). Rewriting kubeadm
  documents is idempotent, touches one lookup and reports exactly its change; headers and bodies are recovered
  from their reassembly exactly when the body does not begin with a blank line.
- **Secret routing** (`SecretRouting`). Reads through a filtered cache answer as the API server does.

`Int32`, `Sums`, `Clock`, `Results` and `Tower` hold what the others share.

Hypotheses, each visible in a contract or in the definition of a run:

- GPU runs: counts of at least one, no model or type named twice by a machine (`World.WellAsked`), and Tower
  never reports more available units than a GPU has (`World.Honest`).
- Hot-update runs: a fixed specification, a VM that never shrinks, no job of the same name left behind
  (`Start`, `Next`). Only reconciles create jobs, though a creation that reports an error may have taken
  effect.
- `HotUpdateProgress`: every call succeeds and every job ends well before the next reconcile (`Calm`,
  `Serve`).
- Placement runs: the attempt sees the group and its VMs as they are, its update is applied at once or not at
  all, no failure domain, and Tower keeps the policy when it starts or moves members (`Current`, `Next`).
- Task runs: status patches are saved, task IDs are fresh, and the machine is gone once its finalizer is.
- Cache runs: a clock that does not run backwards, and atomic operations.
- YAML: mappings hold as many values as keys, as the parser builds them (`WellFormed`).

Where code and comments differ, the model follows the code: a placement group is cached for 20 seconds, not 10
(controllers/elfmachine_controller_placement_group.go:364, controllers/tower_cache.go:237); a cached GPU is
deleted when it is read, although the comment speaks of unexpected data only
(controllers/tower_cache.go:296-297); a nodeRegistration that had to be added is not reported as a change
(controllers/elfmachine_controller_cloudinit.go:174).

## Model

| member | source | states |
|---|---|---|
| `GpuDevices.Available` | pkg/service/util.go:280-291 | a whole device counts as one unit exactly when no attached VM occupies it; a vGPU device counts what it has left |
| `GpuDevices.Occupying` | pkg/service/util.go:294-304 | exactly the attached VMs that are neither stopped nor in the recycle bin, each as often as attached |
| `GpuDevices.TotalSplit` | pkg/service/util.go:257-267 | a total over an unordered set of devices does not depend on the order in which they are visited |
| `GpuLocks.GpuLockTable.LiveLocks` | controllers/vm_limiter.go:313-328 | removes from the table exactly the locks of the cluster aged 8 minutes or more and returns the others |
| `GpuLocks.CountLocked` | controllers/vm_limiter.go:330-343 | the nested counting loops give, for exactly the GPUs some lock names, the sum over all locks, up to int32 wrap-around |
| `GpuLocks.CountLock` | controllers/vm_limiter.go:333-339 | the inner loop adds one lock's share of every GPU to the counts, up to int32 wrap-around |
| `GpuLocks.Prepare` | controllers/vm_limiter.go:247-252 | what would be left of each requested GPU, the last entry winning for a repeated ID, and the entries to lock in order |
| `GpuLocks.AllFit` | controllers/vm_limiter.go:257-261 | true exactly when no counted GPU is held beyond what would be left of it |
| `GpuLocks.GpuLockTable.LockDevices` | controllers/vm_limiter.go:243-267 | succeeds exactly when the live locks leave enough of every requested GPU; then this VM's lock is replaced, otherwise only expired locks go |
| `GpuLocks.GpuLockTable.FilterLocked` | controllers/vm_limiter.go:269-284 | keeps exactly the devices whose availability the live locks have not used up |
| `GpuLocks.GpuLockTable.LockOf` | controllers/vm_limiter.go:286-297 | the VM's lock if it is still live, after the expired ones of the cluster are dropped |
| `GpuLocks.GpuLockTable.UnlockDevices` | controllers/vm_limiter.go:299-311 | removes this VM's lock, and the cluster's entry when none is left |
| `GpuLocks.SumSplit` | controllers/vm_limiter.go:330-343 | the sum over locks splits at any VM, whatever the iteration order |
| `GpuLocks.LockReplacesShare` | controllers/vm_limiter.go:254-264 | a granted lock replaces exactly this VM's share of every GPU and leaves all other locks alone |
| `GpuLocks.UnlockRemovesShare` | controllers/vm_limiter.go:299-311 | unlocking removes exactly this VM's share of every GPU |
| `GpuLocks.LockThenUnlock` | controllers/vm_limiter.go:243-311 | locking and unlocking a VM that held nothing restores every lock and every count, in all clusters |
| `GpuLocks.LiveSumFalls` | controllers/vm_limiter.go:319-324 | as time passes, what live locks hold of a GPU only falls, and never below zero |
| `GpuLocks.LiveIff` | controllers/vm_limiter.go:319-324 | a lock counts for exactly eight minutes |
| `GpuSelect.Group` | controllers/elfmachine_controller_gpu.go:171-179 | in whatever order the devices are visited, each ends up once under its own model or type |
| `GpuSelect.CoverIsTotal` | controllers/elfmachine_controller_gpu.go:200-208 | a group offers exactly the total availability of its model or type |
| `GpuSelect.SelectGPUs` | controllers/elfmachine_controller_gpu.go:170-195 | a selection is made exactly when each model's total covers its count; with distinct models it serves them exactly |
| `GpuSelect.PickGPUs` | controllers/elfmachine_controller_gpu.go:181-194 | the loops over models and devices compute the greedy selection, or nothing when one model falls short |
| `GpuSelect.SelectVGPUs` | controllers/elfmachine_controller_gpu.go:199-246 | a selection is made exactly when each type's total covers its count; with distinct types it serves them exactly |
| `GpuSelect.PickVGPUs` | controllers/elfmachine_controller_gpu.go:210-245 | the loop over types computes the greedy selection, or nothing when one type falls short |
| `GpuSelect.TakeVGPUs` | controllers/elfmachine_controller_gpu.go:217-240 | the inner loop draws on one device after another and leaves a need exactly when the group covers less |
| `GpuSelect.SelectionServes` | controllers/elfmachine_controller_gpu.go:170-246 | with distinct names: IDs distinct, each amount in (0, available], and per name exactly the count asked for |
| `GpuSelect.SelectionSucceedsIff` | controllers/elfmachine_controller_gpu.go:182-192 | greedy selection succeeds exactly when every name's total covers its count, whatever the order of devices |
| `GpuSelect.SelectionExact` | controllers/elfmachine_controller_gpu.go:170-246 | both results together for the value the selectors return |
| `GpuSelect.SelectionDistinctIff` | controllers/elfmachine_controller_gpu.go:182-192 | the selected IDs are distinct exactly when the required names are: a repeated name draws on the same device twice |
| `GpuReuse.CountByType` | pkg/service/util.go:257-267 | counts exactly the types present, each with its total availability up to int32 wrap-around |
| `GpuReuse.HasUnusable` | pkg/service/util.go:241-277 | true exactly when a whole device is occupied by another VM, or some vGPU type is missing or short |
| `GpuReuse.TakenIff` | pkg/service/util.go:244-247 | a whole device is taken exactly when a VM of another name occupies it, or more than one does |
| `GpuReuse.ReportSize` | controllers/elfmachine_controller_gpu.go:387-391 | as many devices are reported as IDs were asked for exactly when the IDs are distinct and all known |
| `GpuReuse.TakeFromCache` | controllers/tower_cache.go:288-302 | the cached devices among the IDs are returned and leave the cache |
| `GpuReuse.CanBeReused` | controllers/elfmachine_controller_gpu.go:385-402 | on one snapshot, asked of cache or Tower: true exactly when the IDs are distinct and known and no device is unusable; an error exactly when Tower has to be asked and fails |
| `GpuReuse.SelectionIsUsable` | pkg/service/util.go:241-277 | devices that serve a machine exactly are not judged unusable on their own snapshot |
| `GpuReuse.FreshLockReusableIff` | controllers/elfmachine_controller_gpu.go:72-85 | a lock just taken passes the whole test on its own snapshot exactly when the machine names no model or type twice |
| `GpuReserve.SelectOnHost` | controllers/elfmachine_controller_gpu.go:144-149 | one host is able to serve exactly when its totals cover every requirement |
| `GpuReserve.TryOne` | controllers/elfmachine_controller_gpu.go:138-162 | on one host: either the devices are locked and serve the machine, or nothing of any live lock changed and the host was short or contended |
| `GpuReserve.TryHosts` | controllers/elfmachine_controller_gpu.go:138-165 | the first granting host wins; without one every host was refused; other VMs' locks never change |
| `GpuReserve.Reserve` | controllers/elfmachine_controller_gpu.go:114-165 | the preferred host is used unless it is refused or offers nothing; a reservation is the VM's lock and serves it exactly |
| `GpuChoice.SelectHostAndGPUs` | controllers/elfmachine_controller_gpu.go:71-165 | a live lock that passes the test is used as it is, one that does not is given up first; what is returned is what the machine's live lock holds, and no other lock changes; nothing is found only when no host can serve, and a preferred host that can is found |
| `GpuChoice.ReserveOffered` | controllers/elfmachine_controller_gpu.go:103-165 | from what Tower offers: nothing is found only when on every host the devices others have not used up fall short of some requirement, or others hold so much of one that what a requirement could draw no longer fits; the host found covers every requirement, and serves distinct names exactly |
| `GpuChoice.NotRefused` | controllers/elfmachine_controller_gpu.go:138-157 | a host whose devices cover every requirement after the locks of others, none of them contended, is never refused |
| `GpuChoice.WholeDevicesIff` | controllers/elfmachine_controller_gpu.go:138-165 | for whole devices something is found exactly when on some host the devices nobody else holds cover every requirement |
| `GpuChoice.AloneIsServed` | controllers/elfmachine_controller_gpu.go:138-165 | with no other live lock, any host whose totals cover the requirements is enough |
| `GpuProtocol.LockStaysWithin` | controllers/vm_limiter.go:254-264 | a granted lock of modest requests keeps every GPU's live locks within its capacity |
| `GpuProtocol.StepKeepsInvariant` | controllers/vm_limiter.go:243-343 | fetch, filter, select-and-lock, read, unlock and waiting each keep the capacity invariant, on views however old |
| `GpuProtocol.RunKeepsInvariant` | controllers/vm_limiter.go:243-343 | the invariant holds in every state of every interleaving of any number of machines |
| `GpuProtocol.NeverOvercommitted` | controllers/vm_limiter.go:243-343 | in every interleaving the live locks on a GPU sum to between zero and its capacity, so no int32 count ever wraps |
| `GpuProtocol.LiveLocksAreRecent` | controllers/vm_limiter.go:319-324 | in every run a lock that counts was taken by its own machine less than eight minutes ago |
| `GpuRepeats.LockWithinIff` | controllers/elfmachine_controller_gpu.go:182-242 | on an empty table, with capacity equal to what is offered, the lock stays within capacity exactly when each name required more than once asks in all for no more than the first device of its group with anything left |
| `GpuRepeats.DrawnRepeatedly` | controllers/elfmachine_controller_gpu.go:217-234 | every requirement of a name draws first on the same device, up to all of it, and on no other while it asks for no more |
| `GpuRepeats.PassthroughWithinIff` | controllers/elfmachine_controller_gpu.go:182-192 | for whole devices: exactly when no model is named twice |
| `HotUpdateMachine.ElfMachine.ReconcileNics` | controllers/elfmachine_controller_resources.go:377-449 | records the present NICs, saves the reason, then asks for exactly the missing ones |
| `HotUpdateMachine.ElfMachine.CollectMacTypes` | controllers/elfmachine_controller_resources.go:487-503 | the last NICs paired with their own devices in order, or a missing MAC; no index out of range |
| `HotUpdateMachine.ElfMachine.SetNicConfig` | controllers/elfmachine_controller_resources.go:452-510 | configures the NICs beyond those recorded, once counts agree and all MACs are known |
| `HotUpdateMachine.ElfMachine.AwaitNicAddresses` | controllers/elfmachine_controller_resources.go:346-373 | in the network stages it waits, and says so in the condition, exactly while some device that has a network has no address |
| `HotUpdateMachine.ElfMachine.ReconcileResources` | controllers/elfmachine_controller_resources.go:40-66 | whatever is answered, from any earned stage: the stage never falls, at most one call is made, each only under its saved reason, for a real need, and where tickets, shortages and jobs allow it; a stage is left only on seeing its job succeed; success means that all is met and addressed; failures are marked and resources recorded |
| `HotUpdateRuns.PassIsGood` | controllers/elfmachine_controller_resources.go:40-66 | whatever is answered: stage never lower, at most one call, each call made only in its stage and for a real need, a stage left only on seeing its job succeed, True only when all is met |
| `HotUpdateRuns.CallsAreGated` | controllers/elfmachine_controller_resources.go:113-147 | UpdateVM, ResizeVMVolume and AddVMNics happen only in a reconcile that began with a saved reason naming that stage or its failed form |
| `HotUpdateRuns.PassIsAllowed` | controllers/elfmachine_controller_resources.go:188-219 | every call respects the ticket, recorded shortages and running operations; a job is made only with a node and when there is none, deleted only when it failed and is due, and taken for done only when it succeeded |
| `HotUpdateRuns.HostJobMoves` | controllers/elfmachine_controller_resources.go:244-320 | a running job is left alone, a missing one made, a failed one marked and deleted exactly when due |
| `HotUpdateRuns.NetworkAwaits` | controllers/elfmachine_controller_resources.go:346-373 | once the NICs are configured only missing addresses keep the network stages from being passed, and the condition then says so |
| `HotUpdateRuns.NetworkMarks` | controllers/elfmachine_controller_resources.go:322-485 | without NICs it waits; a VLAN that cannot be read leaves the reason alone; too many NICs are a failed configuration; a NIC without a MAC is waited for |
| `HotUpdateRuns.PassMarks` | controllers/elfmachine_controller_resources.go:113-144 | a pass that fails says which stage failed, unless it could not read the disk, the NICs or a VLAN |
| `HotUpdateRuns.PassObserves` | controllers/elfmachine_controller_resources.go:97-98 | every pass records the VM's CPUs and memory, and its disk once it is looked at |
| `HotUpdateRuns.TurnIsGood` | controllers/elfmachine_controller.go:1040-1049 | the same for a whole reconcile, including what a failed task does to the reason |
| `HotUpdateRuns.StepKeepsInvariant` | controllers/elfmachine_controller_resources.go:155-242 | every step of the machine, of Tower and of the jobs keeps the invariant and the rank, whether or not the patch is saved |
| `HotUpdateRuns.RunKeepsInvariant` | controllers/elfmachine_controller_resources.go:40-66 | the invariant holds in every state of every run |
| `HotUpdateRuns.RankNeverFalls` | controllers/elfmachine_controller_resources.go:40-66 | for a fixed spec and a VM that never shrinks the stage never falls back between any two states of a run |
| `HotUpdateRuns.SettledMeansFollowed` | controllers/elfmachine_controller_resources.go:155-242 | a settled log has, after each expansion, its job made and then seen to succeed |
| `HotUpdateRuns.CompletionIsEarned` | controllers/elfmachine_controller_resources.go:61-65 | when the condition turns True all capacities are met, every compute expansion was followed by a kubelet job made after it that succeeded, every disk expansion by such a partition job |
| `HotUpdateRuns.CompletionIsAddressed` | controllers/elfmachine_controller_resources.go:358-371 | when the condition turns True from a network stage, and so whenever NICs were added in the run, every NIC that has a network has its address |
| `HotUpdateProgress.RoundProgress` | controllers/elfmachine_controller_resources.go:244-374 | with nothing going wrong every unfinished reconcile strictly lowers the number of passes left |
| `HotUpdateProgress.FinishesWithin` | controllers/elfmachine_controller_resources.go:40-66 | from any earned stage success is reported within the passes left |
| `HotUpdateProgress.FinishesInTenReconciles` | controllers/elfmachine_controller_resources.go:40-66 | from a clear condition the tenth reconcile at the latest reports success with everything met |
| `HotUpdateProgress.PartitionDebtLostIff` | controllers/elfmachine_controller_resources.go:159-186 | a pass that owes the partition job drops it unseen exactly when compute resources are wanted at that moment |
| `HotUpdateProgress.LateComputeSkipsPartition` | controllers/elfmachine_controller_resources.go:159-186 | the failing family: more compute asked for after the disk grew ends in True with no partition job |
| `HotUpdateNics.TurnHandles` | controllers/elfmachine_controller_resources.go:385-510 | for every status and answer: a pass that finds NICs missing records their number, no other pass changes it in these stages, NICs are added by no other pass, and the NIC job names exactly those after the recorded number |
| `HotUpdateNics.NicRunKeeps` | controllers/elfmachine_controller_resources.go:385-397 | in every run the status records, in these stages, the number counted by the last saved pass that found NICs missing |
| `HotUpdateNics.ConfiguresTheUncounted` | controllers/elfmachine_controller_resources.go:466-503 | in every run the job is given exactly the NICs after the number counted last, each with its own device's type, in order |
| `HotUpdateNics.ConfiguresAllAddedIff` | controllers/elfmachine_controller_resources.go:385-503 | the job is given every NIC added since the update began exactly when no saved pass counted when some but not all had arrived |
| `HotUpdateNics.MiddleNicIsLeftOut` | controllers/elfmachine_controller_resources.go:385-397 | NICs that arrive one by one: a run in which the second of three is never configured |
| `SharedCache.OthersKept` | controllers/vm_limiter.go:44-145 | an operation, expiry included, changes what is found only under the keys it names |
| `SharedCache.MemoryCache.AcquirePlacementGroup` | controllers/vm_limiter.go:101-113 | granted exactly when none is found; once granted it is found at every later time, and what is found under other keys stays |
| `SharedCache.MemoryCache.ReleasePlacementGroup` | controllers/vm_limiter.go:115-118 | afterwards no ticket is found at any time, and what is found under other keys stays |
| `SharedCache.MemoryCache.MarkPlacementGroupDuplicate` | controllers/vm_limiter.go:120-123 | the marker is found until exactly five minutes later, and what is found under other keys stays |
| `SharedCache.MemoryCache.AcquireForUpdate` | controllers/vm_limiter.go:84-93 | granted exactly when none is found, then found for exactly six seconds; a refusal changes nothing, nor does anything change under other keys |
| `SharedCache.MemoryCache.ClusterResource` | controllers/tower_cache.go:211-222 | a record of missing resources is returned; anything else found under the key is deleted |
| `SharedCache.MemoryCache.CanRetryKey` | controllers/tower_cache.go:191-209 | only a fresh record allows a retry; one allowed at full size forbids the next for five minutes and does not prolong the record; other keys stay |
| `SharedCache.MemoryCache.CanRetryOperation` | controllers/tower_cache.go:165-181 | yes exactly when under the memory, storage or policy key a fresh record asks for more than is requested now, or was detected and last retried at least five minutes ago; the first such counts the retry, unless for a smaller request, and no other record changes |
| `SharedCache.CanRetryAnyIff` | controllers/tower_cache.go:165-209 | the same over every cache content |
| `SharedCache.MemoryCache.DropPlacementGroups` | controllers/tower_cache.go:250-254 | exactly the cached entries of the named groups are deleted |
| `SharedCache.AtMostOneRetried` | controllers/tower_cache.go:165-181 | one question changes the retry time of at most one record, and only when it answers yes |
| `SharedCache.LabelsGrantedIff` | controllers/vm_limiter.go:160-184 | granted exactly when nobody holds the ticket and the last collection is a day old |
| `SharedCache.LabelsOnceADay` | controllers/vm_limiter.go:195-200 | labels that were collected are not collected again for a day |
| `SharedCache.DuplicateVMIff` | controllers/vm_limiter.go:95-97 | a duplicate VM is remembered for exactly five minutes |
| `SharedCache.CachedGroupIff` | controllers/tower_cache.go:237-268 | a cached group is found for exactly twenty seconds |
| `SharedCache.CachedGpuIff` | controllers/tower_cache.go:273-302 | a cached GPU is found for exactly three seconds, and once |
| `CacheTickets.TicketKeySharedIff` | controllers/tower_cache.go:224-277 | some other operation works on a group's ticket key exactly when the name begins with duplicate: or ends with :cache |
| `CacheTickets.ColonFreeIsSafe` | controllers/vm_limiter.go:131-145 | names without a colon are never such names |
| `CacheTickets.StepKeepsExclusive` | controllers/vm_limiter.go:101-118 | for a safe name every operation on the cache keeps a held ticket stored, unexpiring and held once |
| `CacheTickets.RunKeepsExclusive` | controllers/vm_limiter.go:101-118 | so in every state of every run |
| `CacheTickets.ExclusiveIff` | controllers/vm_limiter.go:101-145 | at most one reconciler ever holds a group's ticket, in every run of all operations on the cache, exactly when the name is safe |
| `CacheSilence.OpOnHeld` | controllers/tower_cache.go:211-268 | while anything is found under a marked group's key, an operation keeps it there, replaces it, or is one of those that delete it |
| `CacheSilence.SilenceKeptIff` | controllers/vm_limiter.go:120-129 | over every run and from every cache: creation is refused in every state up to five minutes after marking exactly when no step before then deletes what is found under the key or lets its time run out |
| `CacheSilence.CachedUnderMarkIff` | controllers/tower_cache.go:232-241 | a cached group shares a marked group's key exactly when the marked name is cache or ends with :cache |
| `CacheSilence.PlainSilenceIff` | controllers/tower_cache.go:211-234 | among names without a colon, for a group not called cache: exactly when no step clears the group's policy record and none asks for it while the marker is all there is |
| `CacheSilence.SilenceIsLost` | controllers/tower_cache.go:217-218 | marking a group and then asking for its policy record ends the silence at once, whatever the cache held |
| `CacheSilence.SilenceIsShortened` | controllers/tower_cache.go:239-247 | caching a group called duplicate cuts the silence of one called cache to twenty seconds |
| `CacheRetry.StepKeepsInv` | controllers/tower_cache.go:104-147 | every operation keeps the stored record in step with the last detection and with the retries it granted |
| `CacheRetry.GrantIsSpaced` | controllers/tower_cache.go:191-209 | a full-size retry is granted only 5 to 10 minutes after detection; a second only in the record's last instant |
| `CacheRetry.RetriesAreSpaced` | controllers/tower_cache.go:191-209 | in every run two such retries under one key are at least five minutes apart |
| `CacheRetry.RetryFollowsDetection` | controllers/tower_cache.go:196-197 | in every run such a retry comes at least five minutes after every earlier detection |
| `CacheRetry.AtMostTwoPerRecord` | controllers/tower_cache.go:140-147 | among any three such retries the shortage was detected again |
| `CacheRetry.TwoPerRecord` | controllers/tower_cache.go:191-209 | two retries on one record do occur, at exactly five and ten minutes |
| `Hosts.NewHosts` | pkg/service/collections.go:37-52 | every listed host is kept under its own ID, the last one winning |
| `Hosts.Filter` | pkg/service/collections.go:132-146 | exactly the hosts that pass, whatever the iteration order, still keyed by ID |
| `Hosts.AvailableIff` | pkg/service/util.go:65-86 | connected in some way, neither in nor entering maintenance, and with the memory asked for |
| `Hosts.FindAndDifference` | pkg/service/collections.go:108-129 | finding some hosts and taking them away split the set in two |
| `PlacementGroup.HostsInPlacementGroup` | controllers/elfmachine_controller_placement_group.go:323-336 | the hosts of exactly the listed VMs |
| `PlacementGroup.CollectAvailableHosts` | controllers/elfmachine_controller_placement_group.go:343-360 | available hosts with enough memory that no member uses, and a running VM's own host without the memory test |
| `PlacementGroup.CollectRecordedHosts` | controllers/elfmachine_controller_placement_group.go:517-525 | the recorded hosts of the other control plane machines recorded as members |
| `PlacementMachine.ElfMachine.JoinPlacementGroup` | controllers/elfmachine_controller_placement_group.go:399-568 | an attempt sends nothing, one migration of its own VM, or the old members and its VM; on the control plane path a VM that is up joins only from a host no member is on and, in a listing of unique names that has this machine, moves only where all replicas end on distinct hosts; and it ends as what it found out says |
| `PlacementMigration.Pigeonhole` | controllers/elfmachine_controller_placement_group.go:517-542 | the recorded hosts are as many as the other machines exactly when all of those are members, each on a host of its own |
| `PlacementMigration.OthersWith` | controllers/elfmachine_controller_placement_group.go:512-534 | with unique names and this machine listed, the others are one fewer than the listed |
| `PlacementMigration.MigratesIff` | controllers/elfmachine_controller_placement_group.go:497-555 | a VM is migrated exactly when it is up where it cannot join, no rolling update is on, all other machines are members on pairwise distinct hosts, and the target is none of them |
| `PlacementMigration.MigrationSeparates` | controllers/elfmachine_controller_placement_group.go:549-555 | the target differs from the VM's host and every member's host, is available, and after the move all replicas are on distinct hosts |
| `PlacementMigration.AvailableIsFree` | controllers/elfmachine_controller_placement_group.go:343-360 | no member of the group is on an available host |
| `PlacementEndings.JoinEnds` | controllers/elfmachine_controller_placement_group.go:399-568 | the VM is added exactly when it may join, moved exactly when all others are settled, recorded exactly when it is in the group; the attempt goes on outside the group, waits or fails in exactly the stated cases |
| `PlacementEndings.TargetsIff` | controllers/elfmachine_controller_placement_group.go:343-360 | a host is left exactly when no member is on it and the VM can run there, memory not counting where it runs already |
| `PlacementEndings.RollingIff` | pkg/util/kcp/kcp.go:35-42 | a rolling update is on exactly when updated, wanted and present replicas are in ascending order and not all equal |
| `PlacementRuns.JoinAddsOnlyItself` | controllers/elfmachine_controller_placement_group.go:560-565 | an attempt sends nothing, one migration of its own VM, or exactly the old members plus its VM |
| `PlacementRuns.RecordsMembership` | controllers/elfmachine_controller_placement_group.go:429-433 | a group is newly recorded for a machine only when its VM is a member, or its update has just succeeded |
| `PlacementRuns.JoinsFromFreeHost` | controllers/elfmachine_controller_placement_group.go:492-497 | without a failure domain a control plane VM that is up is added only from a host no member is on |
| `PlacementRuns.StepKeepsApart` | controllers/elfmachine_controller_placement_group.go:428-567 | every attempt and every move of Tower that keeps the policy leaves members that are up on distinct hosts |
| `PlacementRuns.RunKeepsApart` | controllers/elfmachine_controller_placement_group.go:428-567 | so in every state of every run |
| `PlacementRuns.UpdateKeepsApartIff` | controllers/elfmachine_controller_placement_group.go:450-457 | by whatever path, in a failure domain or not, adding the VM keeps members apart exactly when it is stopped or the attempt sees no member that is up on its host |
| `PlacementRuns.FailureDomainMayCollide` | controllers/elfmachine_controller_placement_group.go:450-457 | with a failure domain two members that are up can end on one host |
| `TaskStages.GpuDisciplined` | controllers/elfmachine_controller_gpu.go:249-381 | the GPU stage submits at most one task and then makes the reconcile wait |
| `TaskStages.PowerDisciplined` | controllers/elfmachine_controller.go:745-922 | the power stage submits at most one task and then makes the reconcile wait |
| `TaskStages.PowerTaskIff` | controllers/elfmachine_controller.go:745-922 | which status and answers lead to a task: suspended VMs are stopped, changed configurations restored, stopped VMs given their disk and powered on |
| `TaskStages.GpuTaskIff` | controllers/elfmachine_controller_gpu.go:249-381 | which answers lead to a task: devices are attached where there are none and detached where refused or unusable, on stopped VMs only; and when the stage fails |
| `TaskStages.StoppedIsPoweredOn` | controllers/elfmachine_controller.go:771-789 | a stopped VM that is through the stages before, has its disk and may start is powered on |
| `TaskStages.JoinDisciplined` | controllers/elfmachine_controller_placement_group.go:399-593 | joining submits a task on the VM only by migrating it, and then makes the reconcile wait |
| `TaskStages.ResourcesOrderly` | controllers/elfmachine_controller_resources.go:40-66 | the resource stages change the VM by one call at most, record its task and wait |
| `TaskStages.OneTaskPerReconcile` | controllers/elfmachine_controller.go:670-687 | however the four stages go, one reconcile submits at most one task through them |
| `VMTaskMachine.ElfMachine.ReconcileTask` | controllers/elfmachine_controller.go:929-1010 | the recorded task is forgotten exactly when it has ended or vanished; a busy VM is waited for even then |
| `VMTaskMachine.ElfMachine.RunStages` | controllers/elfmachine_controller.go:670-685 | the stages in order, each only if the one before let the reconcile go on |
| `VMTaskMachine.ElfMachine.ReconcileNormal` | controllers/elfmachine_controller.go:404-687 | a recorded task that still runs is kept and nothing is submitted beside it, unless the temporary record is gone; beside a clone at most one task; no VM, no task; an idle VM whose task is over is driven through all stages, one in the recycle bin or gone too long fails the machine |
| `VMTaskMachine.ElfMachine.ReconcileDelete` | controllers/elfmachine_controller.go:262-402 | a recorded task that still runs is kept and nothing is submitted beside it, unless the VM and the finalizer are gone; an idle VM whose task is over gets exactly one; the finalizer goes exactly on force or when the lookups say that the VM is gone |
| `TaskRuns.CheckedMeans` | controllers/elfmachine_controller.go:929-1010 | done means that no task is recorded; a task is dropped only when it has ended or vanished |
| `TaskRuns.CheckedIff` | controllers/elfmachine_controller.go:929-1010 | the task is done exactly when it is over, what follows from it was done, and the VM is idle; a cloud-init error fails the machine |
| `TaskRuns.NormalKeepsIff` | controllers/elfmachine_controller.go:593-687 | a reconcile submits in turn, and keeps track of running tasks exactly when it does not meet a dropped record whose recorded task still runs |
| `TaskRuns.DeletionKeeps` | controllers/elfmachine_controller.go:262-402 | a deleting reconcile submits in turn and keeps track until the finalizer is gone, whatever Tower answers |
| `TaskRuns.NormalReconciles` | controllers/elfmachine_controller.go:526-735 | what becomes of the VM for every answer: created or adopted, driven through all stages, failed, or given up with its temporary record |
| `TaskRuns.DeletionTearsDown` | controllers/elfmachine_controller.go:332-402 | the finalizer goes exactly on force, with no such VM, or with the VM not found and no duplicates left; a found, idle VM gets exactly one new task, recorded |
| `TaskRuns.GoneMeansNoVM` | controllers/elfmachine_controller.go:354-391 | in every run a machine that is gone submitted nothing ever, or its last reconcile was forced or told that the VM is gone |
| `TaskRuns.StepKeepsInvariant` | controllers/elfmachine_controller.go:262-735 | every step keeps track of running tasks when Tower drops a temporary record only after its clone task ended |
| `TaskRuns.RunKeepsInvariant` | controllers/elfmachine_controller.go:262-735 | so in every state of every run |
| `TaskRuns.TasksInTurn` | controllers/elfmachine_controller.go:276-329 | in every run a task is submitted only when every earlier task of the machine has ended or vanished |
| `TaskRuns.RunHasNoStray` | controllers/elfmachine_controller.go:593-620 | in every run, with or without that promise of Tower, an empty VMRef has an empty TaskRef |
| `TaskRuns.EarlyDropClonesTwice` | controllers/elfmachine_controller.go:727-732 | without the promise a second clone is submitted beside a running one |
| `Lines.JoinOfSplit` | controllers/elfmachine_controller_cloudinit.go:207-246 | joining the lines of a text gives the text |
| `Lines.SplitOfJoin` | controllers/elfmachine_controller_cloudinit.go:207-246 | splitting joined lines gives the lines |
| `Lines.RemainderIff` | controllers/elfmachine_controller_cloudinit.go:227-231 | behind header lines a text is recovered exactly when it is empty or does not begin with a blank line |
| `CloudInitHeaders.SplitCloudConfigHeader` | controllers/elfmachine_controller_cloudinit.go:207-232 | the optional template line and the cloud-config line, and what follows them and the blank lines below |
| `CloudInitHeaders.SplitYAMLDocumentHeader` | controllers/elfmachine_controller_cloudinit.go:234-246 | the document start line, and what follows it and the blank lines below |
| `CloudInitHeaders.HeadersIff` | controllers/elfmachine_controller_cloudinit.go:213-238 | which first lines are taken for a header, for both kinds |
| `CloudInitHeaders.CloudPartsIff` | controllers/elfmachine_controller_cloudinit.go:69-73 | a cloud-config header set before a body is split off again exactly when the body does not begin with a blank line |
| `CloudInitHeaders.DocumentPartsIff` | controllers/elfmachine_controller_cloudinit.go:234-246 | the same for a document header |
| `CloudInitHeaders.ReassembledCloudConfig` | controllers/elfmachine_controller_cloudinit.go:207-232 | reassembling the parts of any text with a recognised header splits the same way again |
| `CloudInitHeaders.ReassembledDocument` | controllers/elfmachine_controller_cloudinit.go:234-246 | the same for kubeadm configuration |
| `CloudInitHeaders.MarshalYAMLDocuments` | controllers/elfmachine_controller_cloudinit.go:285-305 | fails exactly when a rendering fails; otherwise header, renderings without their last newline, separators and a final newline |
| `CloudInitHeaders.MarshaledPartsIff` | controllers/elfmachine_controller_cloudinit.go:285-305 | the header of marshaled documents is split off again, leaving them as they are, exactly when their first rendered line is not blank |
| `YamlTree.FindMapValue` | controllers/elfmachine_controller_cloudinit.go:330-342 | the value of the first matching key |
| `YamlTree.FindAfterPut` | controllers/elfmachine_controller_cloudinit.go:353-375 | a value put under a key is found there, and every other key finds what it found before |
| `YamlTree.FindNamedAfterPut` | controllers/elfmachine_controller_cloudinit.go:377-393 | the same for the named items of a sequence |
| `CloudInit.UpsertNamedValueSequenceItem` | controllers/elfmachine_controller_cloudinit.go:377-393 | the first item of that name is updated, or a new one added at the end |
| `CloudInit.UpsertStringAgain` | controllers/elfmachine_controller_cloudinit.go:357-375 | a second upsert changes nothing, and the first reports a change exactly when the lookup changed |
| `CloudInit.CrashesIff` | controllers/elfmachine_controller_cloudinit.go:172-195 | a nil node is written to exactly when nodeRegistration is there, is no mapping, and the API version is v1beta3 or v1beta4 |
| `CloudInit.RewriteAgain` | controllers/elfmachine_controller_cloudinit.go:163-205 | a rewritten document is well formed, and rewriting it again leaves it equal and reports no change |
| `CloudInitLookups.FlagIff` | controllers/elfmachine_controller_cloudinit.go:172-205 | a change is reported exactly when looking up the provider ID gives something else than before |
| `CloudInitLookups.OthersKept` | controllers/elfmachine_controller_cloudinit.go:311-393 | every lookup along a path that neither leads to the provider ID nor passes through its key or its named item is unchanged |
| `CloudInitLookups.NamedItemKept` | controllers/elfmachine_controller_cloudinit.go:377-391 | where the provider ID is named already, lookups under that item other than its value are unchanged |
| `CloudInitLookups.ProviderIdIsSet` | controllers/elfmachine_controller_cloudinit.go:163-205 | an init or join configuration ends with the provider ID, under its key for mapped arguments or v1beta3, as a named item for a sequence or v1beta4, unless something other than a scalar stood there |
| `CloudInitLookups.OthersUntouched` | controllers/elfmachine_controller_cloudinit.go:163-170 | documents of any other kind are left as they are |
| `CloudInitLookups.EnsureDocuments` | controllers/elfmachine_controller_cloudinit.go:148-161 | rewrites every document in place in the list, unless one crashes, and reports whether any changed |
| `CloudInitLookups.RewriteAllAgain` | controllers/elfmachine_controller_cloudinit.go:148-161 | for a whole file: a second pass leaves it equal and reports nothing; the first reports a change exactly when some provider ID lookup changed |
| `SecretRouting.RequiresClusterNameLabel` | pkg/manager/secret_cache.go:129-150 | true exactly when some requirement on the cluster name label has an operator that needs the label |
| `SecretRouting.RequiredMeansPresent` | pkg/manager/secret_cache.go:138-147 | a selector that requires the label matches only Secrets that carry it |
| `SecretRouting.OperatorRequiresIff` | pkg/manager/secret_cache.go:143-146 | the operators listed are exactly those no Secret without the label meets |
| `SecretRouting.CacheListsAll` | pkg/manager/secret_cache.go:51-60 | in the default namespace, or under such a selector, the filtered cache lists all the server would |
| `SecretRouting.CacheAloneMisses` | pkg/manager/secret_cache.go:121-126 | for every other matching Secret the cache alone would answer wrongly, and the selector is not routed to it |
| `SecretRouting.Get` | pkg/manager/secret_cache.go:104-114 | for every content and key the answer is the API server's |
| `SecretRouting.List` | pkg/manager/secret_cache.go:116-127 | for every content, namespace and selector the answer is the API server's |

## Left out

- Tower REST calls, parameter building, login and transport: their results are the answers of a pass.
- The Kubernetes client, the patch helper, events, logging, manager start-up and flags.
- Webhooks, generated code, mocks, version and configuration helpers: easy or generated members.
- YAML parsing and rendering: renderings are given, trees are values; comments and styles are not modelled.
- In-place update of YAML nodes: `UpsertString`, `UpsertNamed` and `Rewrite` return new trees, so a node
  shared by two parents, or seen again through an alias, is not captured.
- The hostname commands prepended to runcmd: each call prepends them again by design.
- Runs that take the failure-domain branch of joining: single attempts are covered (`JoinEnds`,
  `UpdateKeepsApartIff`), but over runs Tower's own policy is relied on there.
- The choice of a host before a VM is created, and the creation and deletion of placement groups themselves.
- Agreement of the 20-second placement-group cache with Tower: entries are stored outside the ticket too.
- Validity of label values made from over-long input, which are cut before they are trimmed.
- The limit on VMs created at one time, kept in a second cache, and the deletion of duplicate VMs, which are
  not the machine's own.
- Nil pointers in Tower's answers other than those the code tests for.
- Several clock readings in one critical section: one reading stands for all of them.
- Conditions other than the hot-update condition, and messages in conditions.
- Label tasks and conversions between bytes, MiB and GiB.
- GpuChoice.SelectHostAndGPUs: its success is stated for counts that int32 can hold (`Sane`); an error reading
  the hosts or devices counts as nothing offered.
- GpuReuse.FreshLockReusableIff: needs per-type totals within int32, because the counts it is compared with
  wrap.
- PlacementRuns.UpdateKeepsApartIff: needs the attempt to see the VMs of exactly the members (`Exact`).
- GpuSelect.SelectGPUs: counts below one are not modelled, since the code slices by them; a reported vGPU
  count is never negative.
- SharedCache.MemoryCache.AcquireForUpdate: one atomic step, although the source takes no lock between reading
  and storing.
- CloudInitLookups.ProviderIdIsSet: a provider ID that is not a scalar is left alone, as in the source.
- TaskRuns.TasksInTurn: says nothing after the finalizer is gone, or of a reconcile whose status was not
  saved.
