# Verified model of the resource plugins

This project models, in Dafny, how the storage plugin places workload volumes on a node, how it keeps the books about
them, and how the GPU plugin counts products, and proves what these parts promise.

A node has volumes with a number of free bytes and disks with four quotas each (read and write operations, read and
write bytes, per second); a path belongs to the disk that owns the longest mount covering it. A workload asks for
bindings of four kinds: *normal* ones are placed best-fit on used volumes, a group of *monopoly* ones takes a whole unused
volume, *mount* ones only draw quota, and *unlimited* ones are pinned to the largest volume that is left.

## How it is built

- **Code that changes state is imperative.** `Hosts.Host` is the source's `host`: its used volumes are an array in which
  the heap works in place, its unused volumes are deleted from, its disks lose quota, and its lookup cache fills up.
  `NodeResource`, `NodeInfo` and `NodeStore` are the record, its validation and its stored copy, and `DiskEntry` is the
  entry of a plan's disk list that is bumped in place. Loops over Go maps pick their next key arbitrarily, so every result
  holds for every order of iteration; where the order can change an answer, `Picks.PicksAgree` says exactly when.
- **Each such method is proved against a function.** `Planner.Schedule`, `Planner.Capacity`, `Affinity.Reallocate`,
  `Ledgers.Calculated` and the functions they use compute on values: a `Pool` is what is free on a host, a plan is a list
  of charged entries, and the state after any charges is `Debit(pool, entries)`.
- **The results are lemmas about those functions**, for every host, request list, share function and bound.

The files follow the flow of the source: quotas, bindings, volumes, disks and the heap; charges, passes and their
repetition; monopoly groups, promotion and the planner; refinement, deployability, soundness and contents of plans; the
host class and the disk entries it hands out; records, validation, deployments and ledgers; reallocation and the merging of
requests before it, and when it succeeds; whole runs; then the GPU plugin with its ledger and the text form of bindings.

## Main results

- `Runs.RunSound`: from a valid empty node, any run of scheduler-made deployments, reallocations (with and without
  rescheduling, raising, lowering, adding and dropping mounts), releases and fixes never meets a refused write, keeps the
  record valid and its usage equal to the sum of the live workloads, and leaves the comparison nothing to report.
- `Soundness.PlansAffordable`, `PlanContents.PlansComplete`, `PlanContents.MonopolyExclusive`: all returned plans fit the
  host together, and each is complete.
- `Refinement.CapacityIsPlanCount`, `Refinement.BoundedRefinesReference`, `Deployability.CapacityIsDeployable`: counting is
  materialising, the bounded scheduler is the unbounded one, and every count up to the advertised one can be deployed.
- `Promotion.PromotionOfRequests`, `Promotion.CapacityExhausted`, `Promotion.UnlimitedPinned`: what promotion moves and when it
  stops, why there are no more plans, and where unlimited requests go, said in terms of the requests and the host alone.
- `Headroom.ClosedForm`, `Hosts.Host.ApplyMountPasses`: the closed form for mount-only plans is the loop it replaces, without
  overflow.
- `Serving.ReallocatesIff`, `Serving.ReallocationServes`, `Reallocation.ReallocationFits`, `Reallocs.DeployedIsFixed`: when
  reallocation to changed requests succeeds, what it serves then, that it fits, and that it leaves a freshly deployed workload
  as it is.
- `Runs.RunStorage`: used storage stays within the capacity over whole runs, by the checks before each write alone.
- `Picks.PicksAgree`, `Picks.TwoDevicesDiffer`, `Runs.LiveAnyOrder`: an origin with matched monopoly bindings on two devices
  is reallocated differently depending on map order; the exact condition for one outcome; and every live workload of a run
  meets it, so that its reallocation does not depend on any map order.
- `DiskEntries.GetVolumePlanDisks`, `DiskEntries.MergeInto`: the returned disk plans are made of fresh entries that no two
  plans share, and changing one plan changes no other.

## What the source asks of its callers

The model's preconditions are these, and no more: a record that validates, with each disk device listed once (lookups take
the first entry of a device); request sizes and quotas that are not negative and monopoly sizes that are positive; distinct
destinations within a request list, distinct (source, destination, flags) keys within an origin plan; a deployment count that
is not negative; and quotas and counts within 64 bits. A method on the host also asks for what `newHost` provides (`Host.Valid`).
Reallocation also asks that the usage includes the workload (`Reallocs.Included`) and that the workload's plan is one that
reallocation can give back (`LivePlans.Sits`: charges that are not negative and that its disk plan covers, one entry of each
key, monopoly bindings on one device). `Runs.RunSound` keeps both of every live workload. The distinct destinations are asked
of the merged bindings of a reallocation too.

## Model

| member | source | states |
|---|---|---|
| `Runs.RunSound` | storage/node.go:208-266 | a run of proposed deployments, reallocations, releases and fixes ends, with every write accepted, in a valid record whose usage is the sum of exactly the intended live workloads, with no diff to report, and with every live workload included in the usage and its plan fit to be reallocated |
| `Runs.ProposalAccepted` | storage/calculate.go:17-128 | each single write that carries out what the scheduler proposed passes validation, leaves the intended live workloads, and restores the invariant of the run; a reallocation request that needs no scheduling may add, lower or drop any mount |
| `Runs.RunStorage` | storage/calculate.go:79-81 | over any run whose reallocations pass the check of storage, used storage stays within the capacity, which validation does not look at |
| `Runs.FreshSound` | storage/node.go:29-53 | the validated record of a node whose usage holds nothing satisfies the invariant |
| `Runs.LiveIsFixed` | storage/schedule/schedule.go:542-656 | in every reachable state a live workload that was scheduled on an earlier state keeps its plan when reallocated with its own requests, whichever matched monopoly entry is come to first |
| `Runs.LiveAnyOrder` | storage/schedule/schedule.go:444-470 | in every reachable state, reallocating a live workload to any requests has the same outcome in whatever order its plan and its matched monopoly entries are ranged over |
| `Soundness.PlansAffordable` | storage/schedule/schedule.go:390-442 | all plans returned together take from each volume at most its free bytes and from each disk at most each free quota, and nothing negative, across promotion, shared quota and failed passes |
| `PlanContents.PlansComplete` | storage/schedule/schedule.go:420-441 | every plan places each normal and unlimited request once with its own size, splits one unused volume among the monopoly requests, and its disk plan holds on every disk exactly what these and the mount requests draw |
| `PlanContents.MonopolyExclusive` | storage/schedule/schedule.go:126-193 | the groups of different plans sit on different volumes that were unused, are at least as large as the group, are used up exactly by it, and take no byte of any other plan |
| `PlanContents.PromotionMovesRun` | storage/schedule/schedule.go:369-388 | on a sorted host promotion moves one contiguous run of the unused volumes, from the first at least as large as the size it searches for, and keeps the rest sorted; which size that is says `Promotion.PromotionOfRequests` |
| `Promotion.PromotionOfRequests` | storage/schedule/schedule.go:369-388 | for every request list promotion moves one run of the sorted unused volumes, from the first one at least as large as a smallest normal request; before each move there were more groups than normal plans and fewer of these than wanted, at the end there are not or no such volume is left, and the plans returned are those of the host it leaves |
| `PlanContents.SearchSorted` | storage/schedule/schedule.go:369-388 | on sorted volumes the binary search by size finds the first volume at least as large as the target |
| `Planner.PromoteShape` | storage/schedule/schedule.go:369-388 | promotion returns the evaluation of the partition it ends with, and only moves volumes between the two lists |
| `Refinement.CapacityIsPlanCount` | storage/schedule/schedule.go:472-529 | for every host and request list the capacity is the number of plans that would be returned, though counting and planning bound the monopoly groups differently |
| `Promotion.CapacityExhausted` | storage/schedule/schedule.go:472-491 | the capacity is below the count asked for only when, after that many plans on the host with the promoted volumes, the next normal plan fails or no untaken unused volume fits another group |
| `Refinement.BoundedRefinesReference` | storage/schedule/reference_test.go:19-139 | on a host with at most maxDeployCount volumes (of which, when quota couples the classes, some requested quota adds up to less than the largest integer over all disks) the bounded scheduler returns as many plans as the unbounded one, and the same plans when nothing is unlimited |
| `Deployability.CapacityIsDeployable` | storage/schedule/schedule.go:472-491 | asked for any n up to the capacity advertised for a larger count, the scheduler returns n plans |
| `Termination.EnumerationEnds` | storage/schedule/schedule.go:244-261 | under any bound, a run makes at most as many plans as the used volumes' free bytes and all free quotas add up to, and beyond that ends with a failed pass |
| `Termination.OnePassUsesWorth` | storage/schedule/schedule.go:195-234 | every successful plan that has work to do strictly lowers that sum |
| `Termination.MeterEnds` | storage/schedule/schedule.go:244-261 | a run that asks for a quota makes at most as many plans as all disks have left of that quota, and beyond that ends with a failed pass |
| `Repetition.RepeatKeeps` | storage/schedule/schedule.go:247-259 | what no pass destroys holds after every run, with or without the partial charges of its failed last pass |
| `Repetition.RepeatPrefix` | storage/schedule/schedule.go:359-367 | a smaller bound makes the first of the same plans, and a run that failed is every longer run |
| `Repetition.RepeatStops` | storage/schedule/schedule.go:247-259 | a run ends before its bound only when the next pass on what is left fails, and then keeps what that pass charged |
| `Passes.PickUnique` | storage/schedule/schedule.go:207-223 | the volume picked is the one least volume, by size and device, among those that fit and are quota-qualified |
| `Passes.PickExists` | storage/schedule/schedule.go:207-223 | some volume is picked exactly when some volume fits |
| `Passes.NormalPassServes` | storage/schedule/schedule.go:195-234 | the entries of a normal pass are the requests in order, each with its own size on a used volume, up to the one that failed |
| `Passes.NormalPassStuck` | storage/schedule/schedule.go:203-231 | a normal pass fails only at a request that no used volume fits once the requests before it are charged |
| `Passes.PickSame` | storage/schedule/schedule.go:32-56 | the choice does not depend on the order of the used volumes |
| `Passes.CheckedIffSolvent` | storage/schedule/schedule.go:342-356 | charges that are checked one by one all succeed exactly when the host can pay for their sums, so their order does not matter |
| `Reordering.NormalPassAlike` | storage/schedule/schedule.go:195-234 | on two hosts with the same used volumes in different order a normal pass makes the same plan |
| `Headroom.HeadroomExact` | storage/schedule/schedule.go:674-689 | the headroom of a disk is the largest number of times the sum of the requests fits into what is left |
| `Headroom.NoOverflow` | storage/schedule/schedule.go:288-302 | after one successful pass, one more than the headroom and each multiple charged are 64-bit values |
| `Headroom.ClosedForm` | storage/schedule/schedule.go:274-308 | charging the capacity the headrooms leave in one go, and one failed pass when it is below the bound, is the run of pass after pass |
| `MountPasses.MountNext` | storage/schedule/schedule.go:342-356 | after k passes of mount requests the next succeeds exactly when the quotas pay for k + 1 times their sums |
| `Monopoly.GroupBytes` | storage/schedule/schedule.go:139-153 | whatever the share function rounds to, a group's sizes add up to the whole of its volume and touch no other |
| `Monopoly.GroupSplits` | storage/schedule/schedule.go:143-153 | every request of a group but the first gets its rounded share of the volume, and the first one all the rest |
| `Monopoly.MonoRunTakes` | storage/schedule/schedule.go:164-193 | the volumes taken are unused ones, each at most once, each at least as large as the group |
| `Monopoly.MonoRunTurn` | storage/schedule/schedule.go:164-193 | unused volumes are looked at in their order, and each is taken exactly when fewer than the bound are and it fits the group on what those taken before it leave |
| `Bindings.ClassifyPartitions` | storage/schedule/schedule.go:712-731 | every request lands in exactly one of the four classes, as often as it was given |
| `Bindings.ClassesApart` | storage/schedule/schedule.go:712-723 | each class holds exactly the requests whose source, flags, size and quota ask for it |
| `Bindings.ClassesSorted` | storage/schedule/schedule.go:725-728 | normal and monopoly requests are in ascending size, so the first of a group is a smallest |
| `Bindings.SortBySizeSorts` | storage/schedule/schedule.go:725-730 | sorting normal requests keeps them all and puts them in ascending size |
| `VolumeHeap.Swap` | storage/schedule/schedule.go:42-44 | exactly two slots of the array change places |
| `VolumeHeap.Init` | storage/schedule/schedule.go:196-197 | heap.Init on the array of used volumes leaves a heap of the same volumes |
| `VolumeHeap.Pop` | storage/schedule/schedule.go:50-56 | heap.Pop takes a least volume out and leaves a heap of the others, and the rest of the array as it was |
| `VolumeHeap.Push` | storage/schedule/schedule.go:46-48 | heap.Push adds exactly the volume and leaves a heap, and the rest of the array as it was |
| `VolumeHeap.PushAll` | storage/schedule/schedule.go:225-227 | putting all popped volumes back restores a heap of exactly those that were left and those put back |
| `Disks.GetDiskByPath` | storage/types/disk.go:71-84 | one pass comparing slash counts finds what the specification by mount length finds |
| `Disks.FindDiskLongest` | storage/types/disk.go:71-84 | that lookup returns the owner of a longest mount covering the path on component boundaries, the last such disk on ties, and nothing exactly when no mount covers it |
| `Disks.DepthFollowsLength` | storage/types/disk.go:143-145 | two mounts covering one path compare by depth as they do by length, and are the same path when equally long |
| `Disks.Add` | storage/types/disk.go:86-104 | adding bumps the first entry of each device and appends the entries of unknown ones |
| `Disks.Sub` | storage/types/disk.go:106-131 | subtracting is adding the negated entries |
| `Disks.AddedTotal` | storage/types/disk.go:86-104 | adding two quota lists adds what they hold against every device, meter by meter |
| `Disks.SubbedTotal` | storage/types/disk.go:106-131 | subtracting a list takes away what it holds against every device |
| `Disks.SubbedOne` | storage/schedule/schedule.go:155-159 | subtracting the quota of a request from its disk lowers that disk's quota and nothing else |
| `Charges.DiskPlanTotal` | storage/types/volume.go:118-127 | an accumulated disk plan lists each device once and holds against each disk exactly what the entries draw |
| `Hosts.Host.NewHost` | storage/schedule/schedule.go:73-96 | the host of a valid record: used and unused volumes sorted with what is free of them, disks with what is left of their quotas |
| `HostRecords.HostUnique` | storage/schedule/schedule.go:76-94 | a record makes one host, in whatever order its volume maps are ranged over |
| `Hosts.Host.Clone` | storage/schedule/schedule.go:98-106 | a copy with its own array and an empty cache |
| `Hosts.Host.GetDiskByPath` | storage/schedule/schedule.go:117-124 | the cached answer is that of a fresh lookup, and stays so through every change of quota |
| `Hosts.Host.PopFitting` | storage/schedule/schedule.go:207-213 | popping until a volume fits finds the best fit, sets aside volumes that do not fit, loses none, and fails exactly when none fits |
| `Hosts.Host.Place` | storage/schedule/schedule.go:203-231 | one request is charged to its best fit and to that volume's disk, or nothing changes; the array is a heap again |
| `Hosts.Host.GetNormalPlan` | storage/schedule/schedule.go:195-234 | through the heap, each request gets the least fitting volume; failure is as specified, and on success and failure alike the host is left, up to the order of used volumes, with exactly the charges made |
| `Hosts.Host.GetMountDiskPlan` | storage/schedule/schedule.go:342-356 | succeeds exactly when all checked charges succeed, and leaves the charges made until a failure |
| `Hosts.Host.SplitVolume` | storage/schedule/schedule.go:141-153 | the shares in order, with the remainder on the first, make up the group of the volume |
| `Hosts.Host.GetMonoPlan` | storage/schedule/schedule.go:126-162 | succeeds exactly when the volume fits the total of the group, which then takes it whole; otherwise nothing changes |
| `Hosts.Host.GetMonoPlans` | storage/schedule/schedule.go:164-193 | takes the specified run of unused volumes, and charges exactly the groups on them |
| `Hosts.Host.CountMonoPlans` | storage/schedule/schedule.go:515-529 | counts that run |
| `Hosts.Host.SumMounts` | storage/schedule/schedule.go:280-292 | sums, for each disk, the requests that resolve to it |
| `Hosts.Host.BoundByHeadroom` | storage/schedule/schedule.go:294-297 | the least of the bound and one more than each headroom, in any map order, within 64 bits |
| `Hosts.Host.ChargeTimes` | storage/schedule/schedule.go:298-303 | every summed disk is charged that many times its sum, in any map order, within 64 bits |
| `Hosts.Host.ApplyMountPasses` | storage/schedule/schedule.go:274-308 | count, disk plan and final quotas are those of the loop, including the partial charges of the pass that fails; map order does not matter and nothing overflows |
| `Hosts.Host.GetNormalPlans` | storage/schedule/schedule.go:236-262 | the volume and disk plans of the specified run and the host it leaves |
| `Hosts.Host.CountNormalPlans` | storage/schedule/schedule.go:493-513 | counts the same run and leaves the same host |
| `Hosts.Host.Evaluate` | storage/schedule/schedule.go:400-419 | evaluates the partition on a clone and leaves the host as it is |
| `Hosts.Host.MoveToUsed` | storage/schedule/schedule.go:381-383 | one unused volume, deleted in place, becomes the last used one |
| `Hosts.Host.Promote` | storage/schedule/schedule.go:369-388 | the loop, with its binary search and in-place deletion, ends in the specified partition and evaluation |
| `Hosts.Host.GetUnlimitedPlans` | storage/schedule/schedule.go:310-340 | pins every unlimited request to the first of the largest volumes once all plans are taken off, or reports an error when there is no volume |
| `Promotion.UnlimitedPinned` | storage/schedule/schedule.go:310-340 | in every returned plan all unlimited requests sit, with their own sizes, on the first of the volumes that are largest once every normal plan and every group that an unused volume can hold is taken off, not only those of the plans returned |
| `Assembly.Pinning` | storage/schedule/schedule.go:310-317 | called from planning, with some volume on the host, that error does not occur |
| `Assembly.PartsMake` | storage/schedule/schedule.go:430-441 | merging the parts of plan i by destination is the specified plan i |
| `Hosts.Host.GetVolumePlans` | storage/schedule/schedule.go:390-442 | returns the specified plans, volume plan and disk plan of each |
| `DiskEntries.DeepCopy` | storage/types/disk.go:47-60 | a copied disk list has the same values in fresh entries, each listed once |
| `DiskEntries.Add` | storage/types/disk.go:86-104 | bumps the entries of known devices in place, appends fresh entries for the others, and changes no entry outside the list |
| `DiskEntries.GetMountOnlyPlans` | storage/schedule/schedule.go:264-271 | every plan gets its own fresh entries with the values of the prototype, and no two plans share one |
| `DiskEntries.MergeInto` | storage/schedule/schedule.go:437-438 | adding group disks to plan i leaves the values of every other plan, and of the added list, as they were, and no two plans share an entry afterwards |
| `DiskEntries.AssembleLists` | storage/schedule/schedule.go:433-439 | after the loop plan k holds its own disks and those of group k added up, for every k, and no two plans share an entry |
| `DiskEntries.GetVolumePlanDisks` | storage/schedule/schedule.go:390-442 | the disk lists of the returned plans hold the specified values in fresh entries that no two plans share |
| `Hosts.Host.GetVolumeCapacity` | storage/schedule/schedule.go:472-491 | returns the specified capacity |
| `VolumePlans.GetVolumes` | storage/types/volume.go:318-325 | finds the first entry of the binding's destination, and nothing exactly when there is none |
| `VolumePlans.Merge` | storage/types/volume.go:304-315 | every destination gets the sum of the sizes that both plans give it, entry by entry as in `VolumePlans.MergedEntry`; plans without a common destination are joined as they are |
| `VolumePlans.MergedEntry` | storage/types/volume.go:304-315 | an entry whose destination is in the plan already replaces it by one on its own device, with the sum of both quotas and both sizes, and changes no other entry |
| `VolumePlans.ClassesUnlike` | storage/schedule/schedule.go:712-731 | the classes of one request list have no destination in common, so merging their plans loses nothing |
| `Resources.AddVolumes` | storage/types/volume.go:233-237 | every size is added, in any order of the map |
| `Resources.SubVolumes` | storage/types/volume.go:239-243 | every size is subtracted, in any order of the map |
| `Resources.NodeResource.Add` | storage/types/node.go:38-42 | volumes, disks and storage of another resource are added |
| `Resources.NodeResource.Sub` | storage/types/node.go:44-48 | volumes, disks and storage of another resource are subtracted |
| `Resources.PlusBalance` | storage/types/node.go:38-42 | adding resources adds the bytes of every volume, every meter of every disk, and the storage |
| `Resources.PlusMinus` | storage/types/node.go:38-48 | adding and then subtracting a resource leaves every account as it was |
| `NodeInfos.NodeInfo.Validate` | storage/types/node.go:63-133 | succeeds exactly when usage lies within capacity on every volume and disk, nothing is negative and no unknown disk is drawn from; sorts both disk lists and leaves a usage with capacity's mounts and without unknown disks |
| `Records.AcceptableValid` | storage/types/node.go:83-111 | what validation leaves of an acceptable record is valid and holds the same in every account |
| `Records.SortedOnce` | storage/types/node.go:74-76 | sorting disks again changes nothing |
| `HostRecords.HostGood` | storage/schedule/schedule.go:73-96 | the host of a valid record lists every device once and overdraws nothing |
| `Deployments.DoAlloc` | storage/calculate.go:134-187 | succeeds exactly when the storage of all workloads fits (for a positive count: usage plus the count times the request is at most the capacity) and the scheduler finds a plan for each; then returns that many workloads, those specified |
| `Deployments.GetNodeDeployCapacity` | storage/node.go:316-341 | a positive count is at most the one returned exactly when the storage of that many workloads fits and it is within the capacity of the volumes |
| `Deployments.AdvertisedIsAllocatable` | storage/node.go:316-341 | every count up to the advertised capacity of a node can be allocated on it |
| `Deployments.AllocationFits` | storage/calculate.go:134-187 | committing all workloads of any allocation leaves a record that validates |
| `Deployments.AllocationStorage` | storage/calculate.go:134-140 | committing an allocation keeps used storage within the capacity |
| `Deployments.GroupsUntouched` | storage/schedule/schedule.go:84-94 | on a record the groups of the plans sit on different volumes of which nothing was used, and take their whole capacity |
| `Ledgers.CalculateNodeResource` | storage/node.go:343-386 | written anew, every account holds what the given resource, or else the workloads together hold, whether incr is set or not; otherwise it is that of the origin plus or minus this |
| `Ledgers.AccumulatedBalance` | storage/node.go:343-386 | workloads move every account by the sum of theirs |
| `Ledgers.GetDelta` | storage/utils.go:57-78 | the delta of a reallocation: one volume map, the disks, the storage |
| `Ledgers.DeltaBalance` | storage/utils.go:57-78 | the delta moves every account from what the origin holds to what the target holds |
| `Ledgers.RunBalanced` | storage/node.go:208-266 | every run of arbitrary deployments, reallocations, releases and fixes, some of them refused, keeps the usage equal to the sum of the live workloads, with no diff |
| `Ledgers.NoDiffsMeansEqual` | storage/node.go:268-314 | all accounts agree exactly when the comparison finds nothing and no disk that is missing from the stored usage is drawn from |
| `Ledgers.HiddenDiskUnreported` | storage/node.go:300-311 | such a missing disk is not reported |
| `Ledgers.FixedReportsNothing` | storage/node.go:243-266 | after an accepted fix the comparison finds nothing, and no disk is missing, whatever was stored before |
| `NodeStores.NodeStore.Put` | storage/node.go:189-206 | a write is taken exactly when the record with it validates, and otherwise changes nothing |
| `NodeStores.NodeStore.Deploy` | storage/node.go:208-231 | adding workloads is the deployment step of the ledger |
| `NodeStores.NodeStore.Realloc` | storage/node.go:208-231 | adding the delta of a reallocation is the reallocation step of the ledger |
| `NodeStores.NodeStore.Release` | storage/node.go:208-231 | subtracting a workload is the release step of the ledger |
| `NodeStores.NodeStore.Compare` | storage/node.go:268-314 | lists storage, a volume or a stored disk exactly when it disagrees |
| `NodeStores.NodeStore.Fix` | storage/node.go:243-266 | is the fix step of the ledger, and succeeds exactly when the comparison finds nothing afterwards |
| `Reallocation.ReallocationFits` | storage/schedule/schedule.go:542-656 | on success the host with the origin given back pays for the new plan and the new mounts on every volume and disk, and the disk plan holds exactly what they draw |
| `Reallocation.OriginOrder` | storage/schedule/schedule.go:568-611 | for one matched monopoly entry that is come to first, success, failure and plan are the same in whatever order the origin plan is ranged over |
| `Picks.PicksAgree` | storage/schedule/schedule.go:459-467 | the outcome is the same for every matched monopoly entry that may be come to first exactly when all of them are on one device or reallocation fails for each |
| `Picks.TwoDevicesDiffer` | storage/schedule/schedule.go:459-467 | an origin with two matched monopoly bindings on two devices, both of which succeed and differ |
| `Picks.AnyOrder` | storage/schedule/schedule.go:542-656 | an origin plan with its monopoly bindings on one device is reallocated alike in whatever order it and its matched monopoly entries are ranged over |
| `Affinity.CreditConcat` | storage/schedule/schedule.go:568-583 | giving charges back one list after the other is giving them back at once |
| `Fixpoint.ReallocatedToItself` | storage/schedule/schedule.go:542-656 | a plan from a fresh schedule is reallocated to itself on any later host that still has its volumes and on which its group's volume is full |
| `HostAffinity.GetVolumeByDevice` | storage/schedule/schedule.go:531-540 | finds the volume of a device, used ones first, and nothing exactly when the host has none |
| `HostAffinity.ReleaseMounts` | storage/schedule/schedule.go:548-559 | gives the quota of the old mount requests back, and fails exactly when the source of one with quota is on no disk |
| `HostAffinity.ReleasePlan` | storage/schedule/schedule.go:568-583 | gives bytes and quota of every origin entry back, in any order, and fails exactly when a device or the disk of its quota is missing |
| `HostAffinity.ReleaseAll` | storage/schedule/schedule.go:551-583 | gives the old mount quota and the origin plan back, and fails exactly when a device or a disk of quota is not on the host |
| `HostAffinity.ClassifyAffinity` | storage/schedule/schedule.go:733-748 | splits requests into those with an origin entry of the same key, on its device, and the others |
| `HostAffinity.ChargeEntry` | storage/schedule/schedule.go:587-608 | one matched request is charged exactly when its volume has the bytes and its disk the quota |
| `HostAffinity.ChargeFirst` | storage/schedule/schedule.go:613-623 | mounts and matched normal requests succeed exactly when the host can pay for all of them, and the disk plan holds what they draw |
| `HostAffinity.ChargeGroup` | storage/schedule/schedule.go:625-638 | with a matched monopoly request the whole group stays on its device or reallocation fails; without one the group is left to schedule |
| `HostAffinity.PinMatched` | storage/schedule/schedule.go:640-643 | pinning matched unlimited requests always succeeds and changes nothing on the host |
| `HostAffinity.ScheduleRest` | storage/schedule/schedule.go:645-655 | what has no match is placed by the first plan scheduled for it on top of what is kept, and without a plan reallocation fails |
| `HostAffinity.ChargeAll` | storage/schedule/schedule.go:585-611 | charging matched requests in any map order succeeds exactly when the host can pay for all of them, and leaves the same host |
| `HostAffinity.GetMonoAffinityPlan` | storage/schedule/schedule.go:444-470 | succeeds exactly when the origin's monopoly bindings hold at least the sizes asked for, the volume of the device looked at has them free, and its disk has every summed quota left, also when only some requests are matched; the group then takes that volume whole |
| `HostAffinity.GetAffinityPlan` | storage/schedule/schedule.go:542-656 | succeeds exactly when the requests are serviceable (`Serving.Serviceable`), and answers what the specification of reallocation says: the same error, or the same placements in some order with a disk plan that holds what they draw |
| `Serving.GroupKept` | storage/schedule/schedule.go:444-470 | a group is kept on the device looked at exactly when it fits there by bytes held, bytes free and every meter |
| `Serving.ReallocatesIff` | storage/schedule/schedule.go:542-656 | for any changed requests reallocation succeeds exactly when the origin can be given back, the host without it pays for mounts and matched normal requests, a matched group fits, and the scheduler finds a plan for what is new |
| `Serving.GrownInPlace` | storage/schedule/schedule.go:585-643 | when every request for a volume is matched, nothing is scheduled, and what the host has free without the origin decides |
| `Serving.ReallocationServes` | storage/schedule/schedule.go:542-656 | a reallocated plan has every request for a volume exactly once; matched normal and unlimited ones are where they were, all with their own sizes, and a matched group is on the whole volume of its device |
| `LivePlans.CalculateRealloc` | storage/calculate.go:45-128 | merges the request, and fails on bindings that do not validate, then on negative storage; otherwise succeeds exactly when the new storage (request, origin and sizes asked for) fits in place of the old one and what must be rescheduled can be served; returns the new workload, which can be reallocated again, and its delta, which once committed leaves a record that validates |
| `LivePlans.ReallocatedPlaced` | storage/schedule/schedule.go:542-656 | every entry of a reallocated plan, kept or rescheduled, is on a volume of the host |
| `LivePlans.ReallocatedTogether` | storage/schedule/schedule.go:625-655 | the monopoly bindings of a reallocated plan, kept or rescheduled, are on one device |
| `LivePlans.ReallocatedDistinct` | storage/schedule/schedule.go:542-656 | a reallocated plan has one entry of each key |
| `LivePlans.ScheduledSits` | storage/calculate.go:134-187 | every scheduled plan can be reallocated again |
| `LivePlans.AnswerSits` | storage/calculate.go:83-97 | every reallocated plan can be reallocated again |
| `LivePlans.MergedSits` | storage/calculate.go:94-97 | a plan that is kept under a request that needs no scheduling can be reallocated again, its disk plan holding at least what the merged bindings draw |
| `LivePlans.AnyPick` | storage/schedule/schedule.go:444-470 | for a plan that can be reallocated the outcome does not depend on the matched monopoly entry come to first |
| `Merging.MergeVolumeBindings` | storage/types/volume.go:205-223 | lists once each, in any order, for every key that occurs in either list the binding whose size and meters are the sums of those under that key, unless its size is negative |
| `Merging.MountsOnlyLowered` | storage/calculate.go:61-97 | merging a request that needs no scheduling leaves mounts that draw no more from any disk, meter by meter |
| `Merging.ScheduledUnchanged` | storage/calculate.go:61-97 | merging such a request neither adds, drops nor changes a binding that is scheduled |
| `Reallocs.PlanRealloc` | storage/calculate.go:79-127 | fails on storage or on reallocation as specified, keeps the plan when nothing is scheduled, returns the plan and its delta, and any delta it returns, once committed, leaves a record that validates |
| `Reallocs.TargetIff` | storage/calculate.go:79-97 | a reallocation is granted exactly when its storage fits in place of the old one and its requests can be served |
| `Reallocs.AnswerValidates` | storage/calculate.go:93-103 | committing whatever reallocation answers leaves a record that validates |
| `Reallocs.DeployedIsFixed` | storage/schedule/schedule.go:542-656 | a workload deployed on one state of a node and included in a later one, possibly beside others, is reallocated to the same volumes, sizes and per-disk quotas |
| `Gpu.Shift` | gpu/types/gpu.go:43-59 | every count moves, and one that becomes zero is deleted, in any order of the map |
| `Gpu.ShiftedBack` | gpu/types/gpu.go:43-59 | adding and subtracting the same counts gives the first ones back exactly when none of those they share is zero |
| `Gpu.DoAlloc` | gpu/calculate.go:90-109 | allocating n workloads succeeds exactly when, for every product asked for, usage plus n times the request is at most the capacity, in any map order |
| `Gpu.GetNodeDeployCapacity` | gpu/node.go:270-288 | for 1 <= n <= 1000000, n is at most the capacity exactly when usage plus n times the request stays within every product, despite the early exit and also when usage exceeds capacity |
| `Gpu.CalculateNodeResource` | gpu/node.go:290-321 | written anew, every product counts what the request, else the given resource, else the workloads together count, whether incr is set or not; otherwise it is that of the origin plus or minus this |
| `Gpu.MovedCounts` | gpu/node.go:290-321 | every product moves by the sum of what the workloads hold of it |
| `Gpu.DeployRelease` | gpu/node.go:161-186 | releasing what was deployed gives the usage back, product by product |
| `GpuLedgers.RunBalanced` | gpu/node.go:161-231 | every run of arbitrary deployments, reallocations, releases and fixes, some of them refused, keeps every product of the usage equal to what the live workloads hold of it, with no diff |
| `GpuLedgers.NoDiffsMeansEqual` | gpu/node.go:233-268 | for a usage that validates the comparison finds nothing exactly when the usage is what the workloads use |
| `GpuLedgers.CountStore.Put` | gpu/node.go:161-186 | a write is taken exactly when the record with it validates, and otherwise changes nothing |
| `GpuLedgers.CountStore.Deploy` | gpu/node.go:161-186 | adding workloads is the deployment step of the ledger |
| `GpuLedgers.CountStore.Realloc` | gpu/node.go:161-186 | adding the delta of a reallocation is the reallocation step of the ledger |
| `GpuLedgers.CountStore.Release` | gpu/node.go:161-186 | subtracting a workload is the release step of the ledger |
| `GpuLedgers.CountStore.Compare` | gpu/node.go:233-268 | lists the totals, and a missing or different product, exactly when they disagree |
| `GpuLedgers.CountStore.Fix` | gpu/node.go:211-231 | is the fix step of the ledger, and succeeds exactly when the comparison finds nothing afterwards |
| `Gpu.MergeFromResource` | gpu/types/workload.go:37-40 | the origin moved by the request, without what is no longer positive |
| `Gpu.CalculateRealloc` | gpu/calculate.go:60-78 | succeeds exactly when, for every product the merged request holds, usage plus the request is at most the capacity; returns the merged request with its delta |
| `Gpu.ReallocFits` | gpu/calculate.go:60-78 | committing the delta puts the target in the origin's place and keeps every product within its capacity |
| `BindingText.FlagsRoundTrip` | storage/types/volume.go:41-45 | written flags are read back as they were exactly when they are not empty, sorted, and have no 'o' or one for every 'r' and 'w' |
| `BindingText.SplitJoin` | storage/types/volume.go:29-36 | splitting joined fields gives them back exactly when none has a colon |
| `BindingText.RoundTrip` | storage/types/volume.go:29-100 | parsing the text of a binding gives the binding back exactly when source, destination and flags have no colon, the destination is not empty and the flags are stable |
| `BindingText.ShortText` | storage/types/volume.go:29-55 | a text of fewer fields is read with the default flags and zero for the numbers left out |
| `BindingText.RefusedText` | storage/types/volume.go:29-63 | a text is refused exactly when it has too few or too many fields, no destination, or a number that cannot be read |

## Left out

- The share of a monopoly request in its volume (storage/schedule/schedule.go:145) is computed in floating point; here it is
  any function of the three sizes, and every result holds for all of them. That a share is at least its request is not claimed.
- Sharing of the host's own disk entries: `Hosts.Host` keeps its disks as values in a list that it reassigns. The entries of
  the returned plans are objects (`DiskEntries`).
- 64-bit overflow of sums of request sizes, of requested quotas within one pass that fails, and of shares; multiples charged
  at once are covered.
- Go maps of a volume plan are lists of entries in arbitrary order with distinct keys.
- The docs (docs/storage.md:104-107) promise that every disagreement is reported; storage/node.go:300-311 looks at stored disks
  only. The code is modelled; `Ledgers.NoDiffsMeansEqual` has the exact condition.
- Deployments.AdvertisedIsAllocatable: one direction; a count above the advertised capacity may still be allocatable, since
  capacity need not grow with promotion.
- Refinement.BoundedRefinesReference: asks, when quota couples the classes, that one requested quota, added up over all disks,
  is less than the largest integer, because the bound is then that integer while the reference has none.
- The host after a reallocation that failed: `GetAffinityPlan` promises nothing about it, and the source drops it.
- The record after a validation that failed, beyond the order of its disks and the fill-in of a missing usage.
- Limits and soft limits, IOPS option strings and the volume-changed flag: simple branches beside reallocation. Merged bindings
  are listed in any order, so their sorting by text during validation is not modelled.
- Which GPU product names are blank is a parameter of the GPU ledger.
- Parsing of sizes with units, JSON, raw parameters and the order of request validation errors: reading and writing of numbers
  is a parameter of the text form of bindings.
- etcd and the node store beyond one stored record, locking, and the fan-out over nodes.
- Usage and rate ratios, most idle node, remapping, node requests that change capacity: easy members.
