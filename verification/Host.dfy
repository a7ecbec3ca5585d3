/** The scheduler's host: its volumes and disks change in place while plans are made. */
module Hosts {
  import opened Quantity
  import opened Options
  import opened Bindings
  import opened Disks
  import opened Volumes
  import VolumeHeap
  import opened Charges
  import opened Repetition
  import opened Passes
  import opened Reordering
  import opened MountPasses
  import opened Monopoly
  import opened MonoCharges
  import opened Headroom
  import opened Planner
  import opened NormalPlans
  import opened Refinement
  import opened VolumePlans
  import opened Soundness
  import opened PlanContents
  import opened Assembly
  import opened Resources
  import opened HostRecords

  /** isDiskIOPSQuotaQualified */
  predicate QuotaQualified(ds: seq<Disk>, disk: Option<nat>, req: VolumeBinding)
    requires disk.Some? ==> disk.value < |ds|
  {
    match disk
    case None => !req.RequireIOPS()
    case Some(j) =>
      && ds[j].quota.readBPS >= req.quota.readBPS && ds[j].quota.writeBPS >= req.quota.writeBPS
      && ds[j].quota.readIOPS >= req.quota.readIOPS && ds[j].quota.writeIOPS >= req.quota.writeIOPS
  }

  function DiskQuota(req: VolumeBinding, disk: Disk): Disk {
    Disk(disk.device, disk.mounts, req.quota)
  }

  /** Where a host keeps a volume. */
  datatype Place = Used(index: nat) | Unused(index: nat)

  class Host {
    const maxDeployCount: nat
    const share: Share
    var usedVolumes: array<Volume>
    var unusedVolumes: seq<Volume>
    var disks: seq<Disk>
    var diskByPath: map<string, Option<nat>>

    ghost function Now(): Pool
      reads this, usedVolumes
    {
      Pool(usedVolumes[..], unusedVolumes, QuotasOf(disks))
    }

    ghost function Top(): Topology
      reads this`disks
    {
      TopologyAt(LayoutOf(disks))
    }

    /** Every cached path is the answer of a fresh lookup. */
    ghost predicate CacheAgrees()
      reads this`disks, this`diskByPath
    {
      forall path :: path in diskByPath ==> diskByPath[path] == FindDisk(LayoutOf(disks), path)
    }

    ghost predicate Valid()
      reads this, usedVolumes
    {
      CacheAgrees() && UniqueSlots(LayoutOf(disks)) && Good(Top(), Now())
    }

    /** The host of a node record; the volume maps are ranged over in any order. */
    constructor NewHost(capacity: Resource, usage: Resource, maxDeployCount: nat, share: Share)
      requires Records.RecordValid(capacity, usage)
      ensures Valid() && fresh(usedVolumes) && HostOf(capacity, usage, Now()) && LayoutOf(disks) == LayoutOf(capacity.disks)
      ensures this.maxDeployCount == maxDeployCount && this.share == share && diskByPath == map[]
    {
      var left := Disks.Sub(capacity.disks, usage.disks);
      HostDisks(capacity, usage);
      var touched, untouched := CollectVolumes(capacity, usage);
      var volumes := new Volume[|touched|];
      forall i | 0 <= i < |touched| {
        volumes[i] := touched[i];
      }
      assert volumes[..] == touched;
      this.maxDeployCount := maxDeployCount;
      this.share := share;
      usedVolumes := volumes;
      unusedVolumes := untouched;
      disks := left;
      diskByPath := map[];
      new;
      HostGood(capacity, usage, Now());
    }

    method GetDiskByPath(path: string) returns (disk: Option<nat>)
      requires CacheAgrees()
      modifies this`diskByPath
      ensures CacheAgrees()
      ensures disk == Top().Disk(path)
    {
      if path !in diskByPath {
        var found := Disks.GetDiskByPath(disks, path);
        diskByPath := diskByPath[path := found];
      }
      disk := diskByPath[path];
      TopologyFinds(LayoutOf(disks), path);
    }

    method DecreaseIOPSQuota(disk: nat, req: VolumeBinding)
      requires CacheAgrees() && disk < |disks|
      modifies this`disks
      ensures CacheAgrees() && LayoutOf(disks) == old(LayoutOf(disks))
      ensures QuotasOf(disks) == LessQuota(old(QuotasOf(disks)), Some(disk), req.quota)
    {
      disks := disks[disk := disks[disk].(quota := disks[disk].quota.Minus(req.quota))];
      assert LayoutOf(disks) == old(LayoutOf(disks));
    }

    /** Draws a request's quota, when it asks for any. */
    method ChargeQuota(disk: Option<nat>, req: VolumeBinding)
      requires CacheAgrees() && req.quota.NonNegative()
      requires disk.Some? ==> disk.value < |disks|
      requires req.RequireIOPS() ==> disk.Some?
      modifies this`disks
      ensures CacheAgrees() && LayoutOf(disks) == old(LayoutOf(disks))
      ensures QuotasOf(disks) == LessQuota(old(QuotasOf(disks)), disk, req.quota)
    {
      if req.RequireIOPS() {
        DecreaseIOPSQuota(disk.value, req);
      } else {
        NoQuotaDrawn(QuotasOf(disks), disk, req.quota);
      }
    }

    /** Pops volumes until one fits; those that do not are set aside. */
    method PopFitting(req: VolumeBinding) returns (found: Option<Volume>, disk: Option<nat>, aside: seq<Volume>, n: nat)
      requires CacheAgrees() && VolumeHeap.IsHeap(usedVolumes[..])
      modifies this`diskByPath, usedVolumes
      ensures CacheAgrees() && n + |aside| + (if found.Some? then 1 else 0) == usedVolumes.Length
      ensures VolumeHeap.IsHeap(usedVolumes[..n])
      ensures multiset(usedVolumes[..n]) + multiset(aside) + (if found.Some? then multiset{found.value} else multiset{})
           == multiset(old(usedVolumes[..]))
      ensures found.None? ==> forall v :: v in old(usedVolumes[..]) ==> !Fits(Top(), QuotasOf(disks), v, req)
      ensures found.Some? ==> BestFit(Top(), QuotasOf(disks), old(usedVolumes[..]), req, found.value)
      ensures found.Some? ==> disk == Top().Disk(found.value.device)
    {
      hide BestFit, VolumeHeap.IsHeap;
      ghost var l, vs, qs := Top(), usedVolumes[..], QuotasOf(disks);
      aside := [];
      n := usedVolumes.Length;
      assert usedVolumes[..n] == vs;
      while n > 0
        invariant 0 <= n <= usedVolumes.Length
        invariant CacheAgrees()
        invariant VolumeHeap.IsHeap(usedVolumes[..n])
        invariant Popped(l, qs, req, vs, usedVolumes[..n], aside)
      {
        ghost var heap := usedVolumes[..n];
        var volume := VolumeHeap.Pop(usedVolumes, n);
        n := n - 1;
        LeastOfPopped(l, qs, req, vs, heap, usedVolumes[..n], aside, volume);
        disk := GetDiskByPath(volume.device);
        QualifiedByDisk(disks, disk, volume.device, req);
        if volume.size < req.size || !QuotaQualified(disks, disk, req) {
          aside := aside + [volume];
        } else {
          assert multiset(heap) + multiset(aside) == multiset(vs);
          return Some(volume), disk, aside, n;
        }
      }
      NoneLeft(l, qs, req, vs, usedVolumes[..n], aside);
      assert multiset(usedVolumes[..n]) == multiset{};
      return None, None, aside, n;
    }

    /** Takes the least volume that fits, charges it, and puts everything back into the heap. */
    method Place(req: VolumeBinding) returns (device: Option<string>, disk: Option<nat>)
      requires Valid() && ValidBinding(req) && VolumeHeap.IsHeap(usedVolumes[..])
      modifies this`disks, this`diskByPath, usedVolumes
      ensures Valid() && LayoutOf(disks) == old(LayoutOf(disks)) && VolumeHeap.IsHeap(usedVolumes[..])
      ensures match Pick(Top(), old(Now().quotas), old(Now().used), req)
        case None => device.None? && Alike(Now(), old(Now()))
        case Some(v) =>
          && device == Some(v.device) && disk == Top().Disk(v.device)
          && Alike(Now(), Debit(Top(), old(Now()), [Entry(req, v.device, req.size)]))
    {
      hide Good, CacheAgrees, Debit, Qualified, UniqueSlots, FindDisk;
      ghost var p, l := Now(), Top();
      var found, d, volumeToPush, n := PopFitting(req);
      if found.None? {
        VolumeHeap.PushAll(usedVolumes, n, volumeToPush);
        hide *;
        NothingPicked(l, p.quotas, p.used, req);
        PermutedGood(l, p, Pool(usedVolumes[..], p.unused, p.quotas));
        assert Now() == Pool(usedVolumes[..], p.unused, p.quotas);
        return None, d;
      }
      var volume := found.value;
      var shrunk := volume.(size := volume.size - req.size);
      FitsOnDisk(l, p.quotas, p.used, volume, req);
      PickUnique(l, p.quotas, p.used, req, volume);
      VolumeHeap.PushAll(usedVolumes, n, volumeToPush + [shrunk]);
      ChargeQuota(d, req);
      PlacedGood(l, p, Now(), volume, req);
      return Some(volume.device), d;
    }

    /** The disk plan with a request's quota on its disk, when it asks for any. */
    method PlanQuota(diskPlan: seq<Disk>, disk: Option<nat>, e: Entry) returns (r: seq<Disk>)
      requires disk == Top().Disk(e.device) && (e.binding.RequireIOPS() ==> disk.Some?)
      ensures r == Accumulate(Top(), diskPlan, e)
    {
      r := diskPlan;
      if e.binding.RequireIOPS() {
        r := Disks.Add(diskPlan, [DiskQuota(e.binding, disks[disk.value])]);
      }
    }

    /** The requests before i are served by plan, on a host that was p. */
    ghost predicate Served(p: Pool, reqs: seq<VolumeBinding>, i: nat, plan: VolumePlan, diskPlan: seq<Disk>)
      reads this, usedVolumes
    {
      && i <= |reqs| && NormalPass(Top(), p, reqs[..i]) == Pass(true, plan)
      && Alike(Now(), Debit(Top(), p, plan)) && diskPlan == DiskPlan(Top(), plan)
    }

    /** Serves request i; on failure nothing more is charged. */
    method PlaceNext(ghost p: Pool, reqs: seq<VolumeBinding>, i: nat, plan: VolumePlan, diskPlan: seq<Disk>)
      returns (ok: bool, plan': VolumePlan, diskPlan': seq<Disk>)
      requires Valid() && VolumeHeap.IsHeap(usedVolumes[..]) && i < |reqs| && ValidBinding(reqs[i])
      requires Served(p, reqs, i, plan, diskPlan)
      modifies this`disks, this`diskByPath, usedVolumes
      ensures Valid() && VolumeHeap.IsHeap(usedVolumes[..]) && LayoutOf(disks) == old(LayoutOf(disks))
      ensures ok ==> Served(p, reqs, i + 1, plan', diskPlan')
      ensures !ok ==> NormalPass(Top(), p, reqs) == Pass(false, plan) && Alike(Now(), Debit(Top(), p, plan))
    {
      ghost var q, l := Now(), Top();
      NormalPassNext(l, p, reqs, i, plan, q);
      PickedOnDisk(l, q.quotas, q.used, reqs[i]);
      DebitNil(l, q);
      AlikeDebit(l, q, Debit(l, p, plan), []);
      var device, disk := Place(reqs[i]);
      if device.None? {
        return false, [], [];
      }
      var entry := Entry(reqs[i], device.value, reqs[i].size);
      AlikeNext(l, p, plan, [entry], q, Now());
      DiskPlanNext(l, plan, entry);
      ok, plan' := true, plan + [entry];
      diskPlan' := PlanQuota(diskPlan, disk, entry);
    }

    /** Whether a volume was found for every request; on failure what was charged so far stays charged. */
    method GetNormalPlan(normalRequests: seq<VolumeBinding>) returns (ok: bool, volumePlan: VolumePlan, diskPlan: seq<Disk>)
      requires Valid() && ValidAll(normalRequests)
      modifies this`disks, this`diskByPath, usedVolumes
      ensures Valid() && LayoutOf(disks) == old(LayoutOf(disks))
      ensures ok == NormalPass(Top(), old(Now()), normalRequests).ok
      ensures Alike(Now(), Debit(Top(), old(Now()), NormalPass(Top(), old(Now()), normalRequests).entries))
      ensures ok ==> volumePlan == NormalPass(Top(), old(Now()), normalRequests).entries && diskPlan == DiskPlan(Top(), volumePlan)
    {
      ghost var p, l := Now(), Top();
      VolumeHeap.Init(usedVolumes);
      PermutedGood(l, p, Now());
      DebitNil(l, p);
      volumePlan, diskPlan := [], [];
      for i := 0 to |normalRequests|
        invariant Valid() && LayoutOf(disks) == old(LayoutOf(disks)) && VolumeHeap.IsHeap(usedVolumes[..])
        invariant Served(p, normalRequests, i, volumePlan, diskPlan)
      {
        assert normalRequests[i] in normalRequests;
        ok, volumePlan, diskPlan := PlaceNext(p, normalRequests, i, volumePlan, diskPlan);
        if !ok {
          return false, [], [];
        }
      }
      assert normalRequests[..|normalRequests|] == normalRequests;
      ok := true;
    }

    /** The mount requests before i are charged on a host that was p. */
    ghost predicate Mounted(p: Pool, reqs: seq<VolumeBinding>, i: nat, diskPlan: seq<Disk>)
      reads this, usedVolumes
    {
      && i <= |reqs| && CheckedPass(Top(), p, MountEntries(reqs[..i])).ok
      && Now() == Debit(Top(), p, MountEntries(reqs[..i])) && diskPlan == DiskPlan(Top(), MountEntries(reqs[..i]))
    }

    /** Charges mount request i; on failure nothing more is charged. */
    method MountNext(ghost p: Pool, reqs: seq<VolumeBinding>, i: nat, diskPlan: seq<Disk>) returns (ok: bool, diskPlan': seq<Disk>)
      requires Valid() && i < |reqs| && ValidAll(reqs) && Good(Top(), p)
      requires Mounted(p, reqs, i, diskPlan)
      modifies this`disks, this`diskByPath
      ensures Valid() && LayoutOf(disks) == old(LayoutOf(disks))
      ensures ok ==> Mounted(p, reqs, i + 1, diskPlan')
      ensures !ok ==> CheckedPass(Top(), p, MountEntries(reqs)) == Pass(false, MountEntries(reqs[..i])) && Now() == old(Now())
    {
      var req := reqs[i];
      ghost var q, l := Now(), Top();
      assert req in reqs;
      var entry := Entry(req, req.source, 0);
      MountPassNext(l, p, reqs, i);
      BearsQuota(l, q, entry);
      if !req.RequireIOPS() {
        NoQuotaDrawn(q.quotas, l.Disk(req.source), req.quota);
        PlanSkips(l, diskPlan, entry);
        hide *;
        return true, diskPlan;
      }
      var disk := GetDiskByPath(req.source);
      QualifiedByDisk(disks, disk, req.source, req);
      QualifiedOnDisk(l, q.quotas, req.source, req);
      hide Good, Bears, Qualified, CheckedPass, Debit, MountEntries, DiskPlan, Accumulate, LessQuota, UniqueSlots, ValidAll, QuotaQualified;
      if !QuotaQualified(disks, disk, req) {
        return false, [];
      }
      DecreaseIOPSQuota(disk.value, req);
      ok := true;
      diskPlan' := PlanQuota(diskPlan, disk, entry);
    }

    /** Whether every mount request's quota could be drawn; on failure what was drawn so far stays drawn. */
    method GetMountDiskPlan(reqs: seq<VolumeBinding>) returns (ok: bool, diskPlan: seq<Disk>)
      requires Valid() && ValidAll(reqs)
      modifies this`disks, this`diskByPath
      ensures Valid() && LayoutOf(disks) == old(LayoutOf(disks))
      ensures ok == CheckedPass(Top(), old(Now()), MountEntries(reqs)).ok
      ensures Now() == Debit(Top(), old(Now()), CheckedPass(Top(), old(Now()), MountEntries(reqs)).entries)
      ensures ok ==> diskPlan == DiskPlan(Top(), MountEntries(reqs))
    {
      ghost var p := Now();
      diskPlan := [];
      DebitNil(Top(), p);
      assert MountEntries(reqs[..0]) == [];
      for i := 0 to |reqs|
        invariant Valid() && LayoutOf(disks) == old(LayoutOf(disks))
        invariant Mounted(p, reqs, i, diskPlan)
      {
        ok, diskPlan := MountNext(p, reqs, i, diskPlan);
        if !ok {
          return false, [];
        }
      }
      assert reqs[..|reqs|] == reqs;
      ok := true;
    }

    ghost predicate IsPlace(at: Place)
      reads this
    {
      match at
      case Used(i) => i < usedVolumes.Length
      case Unused(i) => i < |unusedVolumes|
    }

    function VolumeAt(at: Place): Volume
      requires IsPlace(at)
      reads this, usedVolumes
    {
      match at
      case Used(i) => usedVolumes[i]
      case Unused(i) => unusedVolumes[i]
    }

    method SetSize(at: Place, size: int)
      requires IsPlace(at)
      modifies this`unusedVolumes, usedVolumes
      ensures match at
        case Used(i) =>
          usedVolumes[..] == old(usedVolumes[..])[i := Volume(old(usedVolumes[i]).device, size)] && unusedVolumes == old(unusedVolumes)
        case Unused(i) =>
          unusedVolumes == old(unusedVolumes)[i := Volume(old(unusedVolumes[i]).device, size)] && usedVolumes[..] == old(usedVolumes[..])
    {
      match at
      case Used(i) => usedVolumes[i] := Volume(usedVolumes[i].device, size);
      case Unused(i) => unusedVolumes := unusedVolumes[i := Volume(unusedVolumes[i].device, size)];
    }

    method TotalOf(reqs: seq<VolumeBinding>) returns (total: VolumeBinding)
      ensures total == TotalBinding(reqs)
    {
      total := VolumeBinding("", "", "", 0, Quota(0, 0, 0, 0));
      assert reqs[..0] == [] && TotalBinding([]) == total;
      for i := 0 to |reqs|
        invariant total == TotalBinding(reqs[..i])
      {
        TotalNext(reqs, i);
        total := total.AddQuota(reqs[i]);
      }
      assert reqs[..|reqs|] == reqs;
    }

    /** Splits a volume among the requests; the first takes what rounding leaves over. */
    method SplitVolume(monoRequests: seq<VolumeBinding>, total: VolumeBinding, volume: Volume) returns (plan: VolumePlan)
      requires monoRequests != [] && total == TotalBinding(monoRequests)
      ensures plan == MonoGroup(share, monoRequests, volume)
    {
      plan := [];
      var left := volume.size;
      assert monoRequests[..0] == [];
      for i := 0 to |monoRequests|
        invariant Shared(share, monoRequests, volume, i, plan, left)
      {
        SharedNext(share, monoRequests, volume, i, plan, left);
        var size := share(monoRequests[i].size, total.size, volume.size);
        plan := plan + [Entry(monoRequests[i], volume.device, size)];
        left := left - size;
      }
      SharedAll(share, monoRequests, volume, plan, left);
      if left != 0 {
        plan := plan[0 := plan[0].(size := plan[0].size + left)];
      } else {
        assert plan[0 := plan[0].(size := plan[0].size + left)] == plan;
      }
    }

    /** Draws the total quota of a group from its disk, and lists it. */
    method DrawTotal(reqs: seq<VolumeBinding>, total: VolumeBinding, disk: Option<nat>, ghost v: Volume) returns (diskPlan: seq<Disk>)
      requires CacheAgrees() && UniqueSlots(LayoutOf(disks)) && total == TotalBinding(reqs) && total.quota.NonNegative()
      requires disk == Top().Disk(v.device) && (total.RequireIOPS() ==> disk.Some?)
      modifies this`disks
      ensures CacheAgrees() && LayoutOf(disks) == old(LayoutOf(disks))
      ensures QuotasOf(disks) == LessQuota(old(QuotasOf(disks)), disk, total.quota)
      ensures diskPlan == MonoDisks(Top(), reqs, v)
    {
      ghost var before := disks;
      diskPlan := [];
      if total.RequireIOPS() {
        diskPlan := [DiskQuota(total, disks[disk.value])];
        SlotsUnique(disks);
        SubbedOne(disks, disk.value, diskPlan[0]);
        disks := Disks.Sub(disks, diskPlan);
        assert LayoutOf(disks) == LayoutOf(before);
      } else {
        NoQuotaDrawn(QuotasOf(disks), disk, total.quota);
      }
    }

    /** Gives a whole volume to a monopoly group when it is large enough and its disk has the quota. */
    method GetMonoPlan(monoRequests: seq<VolumeBinding>, at: Place) returns (ok: bool, volumePlan: VolumePlan, diskPlan: seq<Disk>)
      requires Valid() && ValidAll(monoRequests) && monoRequests != [] && IsPlace(at)
      modifies this, usedVolumes
      ensures Valid() && LayoutOf(disks) == old(LayoutOf(disks)) && usedVolumes == old(usedVolumes)
      ensures ok == Fits(Top(), old(Now().quotas), old(VolumeAt(at)), TotalBinding(monoRequests))
      ensures !ok ==> Now() == old(Now())
      ensures ok ==> volumePlan == MonoGroup(share, monoRequests, old(VolumeAt(at)))
      ensures ok ==> diskPlan == MonoDisks(Top(), monoRequests, old(VolumeAt(at)))
      ensures ok ==> Now() == Debit(Top(), old(Now()), volumePlan)
    {
      ghost var p, l := Now(), Top();
      var total := TotalOf(monoRequests);
      var volume := VolumeAt(at);
      MonoFits(l, p.quotas, volume, monoRequests);
      if volume.size < total.size {
        return false, [], [];
      }
      var disk := GetDiskByPath(volume.device);
      QualifiedByDisk(disks, disk, volume.device, total);
      hide Qualified, Fits, Good, MonoDisks, MonoGroup, TotalBinding, Debit, LessQuota, UniqueSlots, QuotaQualified;
      if !QuotaQualified(disks, disk, total) {
        return false, [], [];
      }
      volumePlan := SplitVolume(monoRequests, total, volume);
      SetSize(at, 0);
      diskPlan := DrawTotal(monoRequests, total, disk, volume);
      GroupCharged(l, share, p, monoRequests, volume, at.Used?, at.index, Now());
      ok := true;
    }

    /** Tries unused volume i. */
    method TryMono(ghost p: Pool, reqs: seq<VolumeBinding>, i: nat, ghost bound: nat, ghost taken: seq<Volume>)
      returns (ok: bool, volumePlan: VolumePlan, diskPlan: seq<Disk>)
      requires Valid() && Good(Top(), p) && ValidAll(reqs) && reqs != [] && i < |unusedVolumes| == |p.unused| && |taken| < bound
      requires MonoSoFar(Top(), share, p, reqs, i, bound, taken, Now())
      modifies this, usedVolumes
      ensures Valid() && LayoutOf(disks) == old(LayoutOf(disks)) && usedVolumes == old(usedVolumes) && |unusedVolumes| == |p.unused|
      ensures MonoSoFar(Top(), share, p, reqs, i + 1, bound, if ok then taken + [p.unused[i]] else taken, Now())
      ensures ok ==> volumePlan == MonoGroup(share, reqs, p.unused[i]) && diskPlan == MonoDisks(Top(), reqs, p.unused[i])
    {
      MonoUntouched(Top(), share, p, reqs, i, bound, taken, Now());
      MonoNext(Top(), share, p, reqs, i, bound, taken, Now());
      ok, volumePlan, diskPlan := GetMonoPlan(reqs, Unused(i));
    }

    /** Gives unused volumes, in order, to monopoly groups, at most bound of them. */
    method GetMonoPlans(monoRequests: seq<VolumeBinding>, bound: nat) returns (volumePlans: seq<VolumePlan>, diskPlans: seq<seq<Disk>>)
      requires Valid() && ValidAll(monoRequests)
      modifies this, usedVolumes
      ensures Valid() && LayoutOf(disks) == old(LayoutOf(disks)) && |volumePlans| == |diskPlans|
      ensures monoRequests == [] ==> volumePlans == seq(maxDeployCount, i => []) && diskPlans == seq(maxDeployCount, i => [])
      ensures monoRequests == [] ==> Now() == old(Now())
      ensures monoRequests != [] ==>
        var p := old(Now()); var taken := MonoRun(Top(), share, p.unused, p.quotas, monoRequests, |p.unused|, bound);
        PlansOf(Top(), share, monoRequests, taken, volumePlans, diskPlans) && Now() == Debit(Top(), p, Flat(volumePlans))
    {
      volumePlans, diskPlans := [], [];
      if monoRequests == [] {
        return seq(maxDeployCount, i => []), seq(maxDeployCount, i => []);
      }
      hide Good, CacheAgrees, UniqueSlots, Debit, MonoRun, MonoGroup, ValidAll, Flat;
      ghost var p, l := Now(), Top();
      ghost var taken: seq<Volume> := [];
      MonoStart(l, share, p, monoRequests, bound);
      if |unusedVolumes| == 0 {
        return;
      }
      var i := 0;
      while i < |unusedVolumes|
        invariant 0 <= i <= |unusedVolumes| && |unusedVolumes| == |p.unused|
        invariant Valid() && LayoutOf(disks) == old(LayoutOf(disks)) && usedVolumes == old(usedVolumes)
        invariant MonoSoFar(l, share, p, monoRequests, i, bound, taken, Now())
        invariant PlansOf(l, share, monoRequests, taken, volumePlans, diskPlans)
      {
        if |volumePlans| >= bound {
          MonoFull(l, share, p, monoRequests, i, |p.unused|, bound);
          break;
        }
        PlansOfNext(l, share, monoRequests, taken, volumePlans, diskPlans, p.unused[i]);
        var ok, volumePlan, monoDisks := TryMono(p, monoRequests, i, bound, taken);
        if ok {
          volumePlans, diskPlans := volumePlans + [volumePlan], diskPlans + [monoDisks];
          taken := taken + [p.unused[i]];
        }
        i := i + 1;
      }
    }

    /** GetMonoPlans without the plans. */
    method CountMonoPlans(monoRequests: seq<VolumeBinding>, bound: nat) returns (capacity: nat)
      requires Valid() && ValidAll(monoRequests)
      modifies this, usedVolumes
      ensures Valid() && LayoutOf(disks) == old(LayoutOf(disks))
      ensures capacity == if monoRequests == [] then maxDeployCount else
        |MonoRun(Top(), share, old(Now()).unused, old(Now()).quotas, monoRequests, |old(Now()).unused|, bound)|
    {
      if monoRequests == [] {
        return maxDeployCount;
      }
      hide Good, CacheAgrees, UniqueSlots, Debit, MonoRun, MonoGroup, ValidAll, Flat;
      ghost var p, l := Now(), Top();
      ghost var taken: seq<Volume> := [];
      MonoStart(l, share, p, monoRequests, bound);
      capacity := 0;
      var i := 0;
      while i < |unusedVolumes|
        invariant 0 <= i <= |unusedVolumes| && |unusedVolumes| == |p.unused| && capacity == |taken|
        invariant Valid() && LayoutOf(disks) == old(LayoutOf(disks)) && usedVolumes == old(usedVolumes)
        invariant MonoSoFar(l, share, p, monoRequests, i, bound, taken, Now())
      {
        if capacity >= bound {
          MonoFull(l, share, p, monoRequests, i, |p.unused|, bound);
          break;
        }
        var ok, _, _ := TryMono(p, monoRequests, i, bound, taken);
        if ok {
          capacity := capacity + 1;
          taken := taken + [p.unused[i]];
        }
        i := i + 1;
      }
    }

    /** The total quota of the mount requests of each disk. */
    method SumMounts(mountRequests: seq<VolumeBinding>) returns (sums: map<nat, Quota>)
      requires CacheAgrees() && ValidAll(mountRequests) && OnDisks(Top(), MountEntries(mountRequests))
      modifies this`diskByPath
      ensures CacheAgrees() && Summed(Top(), MountEntries(mountRequests), sums)
    {
      sums := map[];
      for i := 0 to |mountRequests|
        invariant CacheAgrees()
        invariant Summed(Top(), MountEntries(mountRequests[..i]), sums)
      {
        var req := mountRequests[i];
        ghost var es, e := MountEntries(mountRequests[..i]), Entry(req, req.source, 0);
        MountEntriesNext(mountRequests, i);
        assert req in mountRequests && MountEntries(mountRequests)[i] == e;
        if !req.RequireIOPS() {
          SummedSkip(Top(), es, e, sums);
          continue;
        }
        var disk := GetDiskByPath(req.source);
        var sum := if disk.value in sums then sums[disk.value] else Quota(0, 0, 0, 0);
        SummedAdd(Top(), es, e, sums, disk.value, sum);
        sums := sums[disk.value := sum.Plus(req.quota)];
      }
      assert mountRequests[..|mountRequests|] == mountRequests;
    }

    /** The bound cut down to what the disks can pay for, in any order of the map; 1 + headroom does not overflow. */
    method BoundByHeadroom(bound: int, sums: map<nat, Quota>) returns (capacity: int)
      requires bound >= 1 && (forall j :: j in sums ==> j < |disks|) && NothingOverflows(QuotasOf(disks), sums)
      ensures LargestCount(QuotasOf(disks), sums, bound, capacity)
    {
      capacity := bound;
      var rest := sums.Keys;
      while rest != {}
        invariant rest <= sums.Keys && 1 <= capacity <= bound
        invariant forall j :: j in sums && j !in rest ==> capacity - 1 <= QuotaHeadroom(disks[j].quota, sums[j])
        invariant capacity < bound ==> exists j :: j in sums && capacity == 1 + QuotaHeadroom(disks[j].quota, sums[j])
        decreases |rest|
      {
        var j :| j in rest;
        rest := rest - {j};
        assert SafeSum(QuotasOf(disks)[j], sums[j]);
        capacity := Min(capacity, 1 + QuotaHeadroom(disks[j].quota, sums[j]));
      }
    }

    /** Draws k times every sum, in any order of the map; no multiple overflows. */
    method ChargeTimes(sums: map<nat, Quota>, k: nat)
      requires CacheAgrees() && forall j :: j in sums ==> j < |disks| && InRange(sums[j].Times(k))
      modifies this`disks
      ensures CacheAgrees() && LayoutOf(disks) == old(LayoutOf(disks))
      ensures LessTimes(old(QuotasOf(disks)), sums, k, QuotasOf(disks))
    {
      var rest := sums.Keys;
      while rest != {}
        invariant rest <= sums.Keys && |disks| == |old(disks)| && LayoutOf(disks) == old(LayoutOf(disks))
        invariant forall j: nat :: j < |disks| ==>
          disks[j].quota == if j in sums && j !in rest then old(disks)[j].quota.Minus(sums[j].Times(k)) else old(disks)[j].quota
        decreases |rest|
      {
        var j :| j in rest;
        rest := rest - {j};
        disks := disks[j := disks[j].(quota := disks[j].quota.Minus(sums[j].Times(k)))];
        assert LayoutOf(disks) == old(LayoutOf(disks));
      }
    }

    /** After one successful pass on a host that was p: how many passes there are in all, charging all but the first at once. */
    method ChargeRest(ghost p: Pool, mountRequests: seq<VolumeBinding>, bound: nat) returns (capacity: nat)
      requires Valid() && Good(Top(), p) && ValidAll(mountRequests) && 1 <= bound <= MAX_INT
      requires forall j :: 0 <= j < |p.quotas| ==> InRange(p.quotas[j])
      requires CheckedPass(Top(), p, MountEntries(mountRequests)).ok && Now() == Debit(Top(), p, MountEntries(mountRequests))
      modifies this`disks, this`diskByPath
      ensures Valid() && LayoutOf(disks) == old(LayoutOf(disks)) && 1 <= capacity <= bound
      ensures Now() == Debit(Top(), p, Flat(Copies(capacity, MountEntries(mountRequests))))
      ensures Repeat(Top(), p, PassOf(Top(), [], mountRequests), bound) == ClosedRun(Top(), p, mountRequests, bound, capacity)
    {
      ghost var l, es, d := Top(), MountEntries(mountRequests), Now();
      MountEntriesValid(mountRequests);
      CheckedIffSolvent(l, p, es);
      var sums := SumMounts(mountRequests);
      AllInRange(l, p, es, sums);
      capacity := BoundByHeadroom(bound, sums);
      ClosedForm(l, p, mountRequests, sums, bound, capacity);
      SafeTimes(d.quotas, sums, bound, capacity);
      ChargeTimes(sums, capacity - 1);
      LessTimesIsDebit(l, d, es, sums, capacity - 1, QuotasOf(disks));
    }

    /**
     * The enumeration of mount-only plans in closed form: the same count, the same plan, the same final quotas, with the
     * partial charges of the pass that fails.
     */
    method ApplyMountPasses(mountRequests: seq<VolumeBinding>, bound: int) returns (capacity: nat, prototype: seq<Disk>)
      requires Valid() && ValidAll(mountRequests) && bound <= MAX_INT
      requires forall j :: 0 <= j < |disks| ==> InRange(disks[j].quota)
      modifies this`disks, this`diskByPath
      ensures Valid() && LayoutOf(disks) == old(LayoutOf(disks))
      ensures bound >= 1 ==>
        var run := Repeat(Top(), old(Now()), PassOf(Top(), [], mountRequests), bound);
        capacity == |run.plans| && Now() == Debit(Top(), old(Now()), Spent(run))
      ensures bound < 1 ==>
        capacity == 0 && Now() == Debit(Top(), old(Now()), CheckedPass(Top(), old(Now()), MountEntries(mountRequests)).entries)
      ensures capacity > 0 ==> prototype == DiskPlan(Top(), MountEntries(mountRequests))
    {
      ghost var p, l, es := Now(), Top(), MountEntries(mountRequests);
      var ok, plan := GetMountDiskPlan(mountRequests);
      if !ok || bound < 1 {
        if bound >= 1 {
          MountRunFails(l, p, mountRequests, bound);
          FlatNothing(CheckedPass(l, p, es).entries);
        }
        return 0, [];
      }
      prototype := plan;
      capacity := ChargeRest(p, mountRequests, bound);
      if capacity < bound {
        ghost var c := Flat(Copies(capacity, es));
        DebitConcat(l, p, c, CheckedPass(l, Debit(l, p, c), es).entries);
        hide *;
        var _, _ := GetMountDiskPlan(mountRequests);
      } else {
        FlatNothing(Flat(Copies(capacity, es)));
      }
    }

    /** One plan: a volume for every normal request, then quota for every mount request. */
    method OnePlan(c: RequestClasses) returns (ok: bool, volumePlan: VolumePlan, diskPlan: seq<Disk>)
      requires Valid() && ValidAll(c.normal) && ValidAll(c.mount)
      modifies this`disks, this`diskByPath, usedVolumes
      ensures Valid() && LayoutOf(disks) == old(LayoutOf(disks))
      ensures ok == OnePass(Top(), old(Now()), c.normal, c.mount).ok
      ensures Alike(Now(), Debit(Top(), old(Now()), OnePass(Top(), old(Now()), c.normal, c.mount).entries))
      ensures ok ==> volumePlan == NormalPart(OnePass(Top(), old(Now()), c.normal, c.mount).entries, c)
      ensures ok ==> diskPlan == Added(DiskPlan(Top(), volumePlan), DiskPlan(Top(), MountEntries(c.mount)))
    {
      ghost var q, l := Now(), Top();
      ghost var n := NormalPass(l, q, c.normal);
      ok, volumePlan, diskPlan := GetNormalPlan(c.normal);
      if !ok {
        return;
      }
      ghost var r := Now();
      CheckedPassAlike(l, r, Debit(l, q, n.entries), MountEntries(c.mount));
      var mountDiskPlan: seq<Disk>;
      ok, mountDiskPlan := GetMountDiskPlan(c.mount);
      AlikeNext(l, q, n.entries, CheckedPass(l, r, MountEntries(c.mount)).entries, r, Now());
      if ok {
        diskPlan := Disks.Add(diskPlan, mountDiskPlan);
      }
    }

    /** Plan after plan until one fails or the bound is met. */
    method EnumeratePlans(c: RequestClasses, bound: int) returns (volumePlans: seq<VolumePlan>, diskPlans: seq<seq<Disk>>)
      requires Valid() && ValidAll(c.normal) && ValidAll(c.mount) && c.normal != []
      modifies this`disks, this`diskByPath, usedVolumes
      ensures Valid() && LayoutOf(disks) == old(LayoutOf(disks))
      ensures NormalPlansOf(Top(), NormalStage(Top(), old(Now()), c, maxDeployCount, bound).plans, c, volumePlans, diskPlans)
      ensures Alike(Now(), Debit(Top(), old(Now()), Spent(NormalStage(Top(), old(Now()), c, maxDeployCount, bound))))
    {
      hide OnePass, NormalStage, Repeat, PassOf, Debit, Alike, Good, CacheAgrees, UniqueSlots, ValidAll;
      ghost var p, l := Now(), Top();
      volumePlans, diskPlans := [], [];
      ghost var plans: seq<seq<Entry>> := [];
      NormalStart(l, p, c);
      while |volumePlans| < bound
        invariant Valid() && LayoutOf(disks) == old(LayoutOf(disks)) && (|plans| <= bound || plans == [])
        invariant NormalSoFar(l, p, c, |plans|, plans, Now())
        invariant NormalPlansOf(l, plans, c, volumePlans, diskPlans)
        decreases bound - |volumePlans|
      {
        ghost var q := Now();
        var ok, volumePlan, diskPlan := OnePlan(c);
        NormalNext(l, p, c, |plans|, plans, q, Now());
        if !ok {
          NormalStops(l, p, c, maxDeployCount, bound, |plans| + 1);
          return;
        }
        ghost var plan := OnePass(l, q, c.normal, c.mount).entries;
        NormalPlansNext(l, plans, c, volumePlans, diskPlans, plan, volumePlan, diskPlan);
        volumePlans, diskPlans, plans := volumePlans + [volumePlan], diskPlans + [diskPlan], plans + [plan];
      }
      NormalStops(l, p, c, maxDeployCount, bound, |plans|);
      FlatNothing(Flat(plans));
    }

    /** EnumeratePlans without the plans. */
    method CountPlans(c: RequestClasses, bound: int) returns (capacity: nat)
      requires Valid() && ValidAll(c.normal) && ValidAll(c.mount) && c.normal != []
      modifies this`disks, this`diskByPath, usedVolumes
      ensures Valid() && LayoutOf(disks) == old(LayoutOf(disks))
      ensures capacity == |NormalStage(Top(), old(Now()), c, maxDeployCount, bound).plans|
      ensures Alike(Now(), Debit(Top(), old(Now()), Spent(NormalStage(Top(), old(Now()), c, maxDeployCount, bound))))
    {
      hide OnePass, NormalStage, Repeat, PassOf, Debit, Alike, Good, CacheAgrees, UniqueSlots, ValidAll;
      ghost var p, l := Now(), Top();
      capacity := 0;
      ghost var plans: seq<seq<Entry>> := [];
      NormalStart(l, p, c);
      while capacity < bound
        invariant Valid() && LayoutOf(disks) == old(LayoutOf(disks)) && (|plans| <= bound || plans == []) && capacity == |plans|
        invariant NormalSoFar(l, p, c, |plans|, plans, Now())
        decreases bound - capacity
      {
        ghost var q := Now();
        var ok, _, _ := OnePlan(c);
        NormalNext(l, p, c, |plans|, plans, q, Now());
        if !ok {
          NormalStops(l, p, c, maxDeployCount, bound, |plans| + 1);
          return;
        }
        capacity, plans := capacity + 1, plans + [OnePass(l, q, c.normal, c.mount).entries];
      }
      NormalStops(l, p, c, maxDeployCount, bound, |plans|);
      FlatNothing(Flat(plans));
    }

    /** The normal plans of a host, at most bound of them. */
    method GetNormalPlans(c: RequestClasses, bound: int) returns (volumePlans: seq<VolumePlan>, diskPlans: seq<seq<Disk>>)
      requires Valid() && ValidAll(c.normal) && ValidAll(c.mount) && bound <= MAX_INT
      requires forall j :: 0 <= j < |disks| ==> InRange(disks[j].quota)
      modifies this`disks, this`diskByPath, usedVolumes
      ensures Valid() && LayoutOf(disks) == old(LayoutOf(disks))
      ensures NormalPlansOf(Top(), NormalStage(Top(), old(Now()), c, maxDeployCount, bound).plans, c, volumePlans, diskPlans)
      ensures Alike(Now(), Debit(Top(), old(Now()), Spent(NormalStage(Top(), old(Now()), c, maxDeployCount, bound))))
    {
      ghost var p, l := Now(), Top();
      if c.normal == [] && !AnyRequireIOPS(c.mount) {
        NoWorkPlans(l, p, c, maxDeployCount, bound);
        return seq(maxDeployCount, i => []), seq(maxDeployCount, i => []);
      }
      if c.normal == [] {
        MountOnlyStage(l, p, c, maxDeployCount, bound);
        MountOnlyPlans(l, c, NormalStage(l, p, c, maxDeployCount, bound).plans);
        var capacity, prototype := ApplyMountPasses(c.mount, bound);
        return seq(capacity, i => []), seq(capacity, i => prototype);
      }
      volumePlans, diskPlans := EnumeratePlans(c, bound);
    }

    /** GetNormalPlans without the plans. */
    method CountNormalPlans(c: RequestClasses, bound: int) returns (capacity: nat)
      requires Valid() && ValidAll(c.normal) && ValidAll(c.mount) && bound <= MAX_INT
      requires forall j :: 0 <= j < |disks| ==> InRange(disks[j].quota)
      modifies this`disks, this`diskByPath, usedVolumes
      ensures Valid() && LayoutOf(disks) == old(LayoutOf(disks))
      ensures capacity == |NormalStage(Top(), old(Now()), c, maxDeployCount, bound).plans|
      ensures Alike(Now(), Debit(Top(), old(Now()), Spent(NormalStage(Top(), old(Now()), c, maxDeployCount, bound))))
    {
      ghost var p, l := Now(), Top();
      if c.normal == [] && !AnyRequireIOPS(c.mount) {
        NoWorkPlans(l, p, c, maxDeployCount, bound);
        return maxDeployCount;
      }
      if c.normal == [] {
        MountOnlyStage(l, p, c, maxDeployCount, bound);
        var count, _ := ApplyMountPasses(c.mount, bound);
        return count;
      }
      capacity := CountPlans(c, bound);
    }

    /** A copy with its own volumes and an empty lookup cache. */
    constructor Clone(h: Host)
      requires h.Valid()
      ensures Valid() && fresh(usedVolumes) && Now() == h.Now() && LayoutOf(disks) == LayoutOf(h.disks)
      ensures maxDeployCount == h.maxDeployCount && share == h.share && disks == h.disks
    {
      maxDeployCount := h.maxDeployCount;
      share := h.share;
      var copy := new Volume[h.usedVolumes.Length];
      forall i | 0 <= i < copy.Length {
        copy[i] := h.usedVolumes[i];
      }
      assert copy[..] == h.usedVolumes[..];
      usedVolumes := copy;
      unusedVolumes := h.unusedVolumes;
      disks := h.disks;
      diskByPath := map[];
      new;
      assert Now() == h.Now() && Top() == h.Top();
    }

    ghost predicate Within64()
      reads this`disks
    {
      maxDeployCount <= MAX_INT && forall j :: 0 <= j < |disks| ==> InRange(disks[j].quota)
    }

    /** What the host's partition of its volumes allows; the host itself is left as it is. */
    method Evaluate(c: RequestClasses, bound: nat, mode: Mode) returns (r: Evaluated)
      requires Valid() && Within64() && ValidClasses(c) && bound <= MAX_INT && !mode.Reference?
      ensures var q := Query(c, maxDeployCount, mode, bound);
        EvaluatedAs(Top(), share, Planner.Evaluate(Top(), share, Now(), q), q, r)
    {
      hide MonoRun, NormalStage, Debit, Spent, Good, CacheAgrees, UniqueSlots, MonoGroup, Flat;
      var scratch := new Host.Clone(this);
      if mode.Counting? {
        var normalCapacity := scratch.CountNormalPlans(c, bound);
        var monoCapacity := scratch.CountMonoPlans(c.mono, Max(maxDeployCount, normalCapacity + 1));
        return Evaluated(normalCapacity, monoCapacity, [], [], [], []);
      }
      var normalVolumes, normalDisks := scratch.GetNormalPlans(c, bound);
      var monoBound := MAX_INT;
      if c.unlimited == [] {
        monoBound := Max(maxDeployCount, |normalVolumes| + 1);
      }
      var monoVolumes, monoDisks := scratch.GetMonoPlans(c.mono, monoBound);
      return Evaluated(|normalVolumes|, |monoVolumes|, normalVolumes, normalDisks, monoVolumes, monoDisks);
    }

    /** slices.BinarySearchFunc of the unused volumes by size. */
    method SearchBySize(target: int) returns (p: nat)
      ensures p == Search(unusedVolumes, target, 0, |unusedVolumes|)
    {
      var i, j := 0, |unusedVolumes|;
      while i < j
        invariant 0 <= i <= j <= |unusedVolumes|
        invariant Search(unusedVolumes, target, i, j) == Search(unusedVolumes, target, 0, |unusedVolumes|)
      {
        var h := (i + j) / 2;
        if unusedVolumes[h].size < target {
          i := h + 1;
        } else {
          j := h;
        }
      }
      p := i;
    }

    /** Unused volume k becomes the last used one. */
    method MoveToUsed(k: nat)
      requires Valid() && k < |unusedVolumes|
      modifies this`usedVolumes, this`unusedVolumes
      ensures Valid() && fresh(usedVolumes) && Now() == Move(old(Now()), k)
    {
      ghost var p := Now();
      var n := usedVolumes.Length;
      var grown := new Volume[n + 1];
      forall i | 0 <= i < n {
        grown[i] := usedVolumes[i];
      }
      grown[n] := unusedVolumes[k];
      assert grown[..] == usedVolumes[..] + [unusedVolumes[k]];
      unusedVolumes := unusedVolumes[..k] + unusedVolumes[k + 1..];
      usedVolumes := grown;
      MoveGood(Top(), p, k);
      assert Now() == Move(p, k);
    }

    /** Moves the first unused volume that the smallest normal request fits to the used ones, and evaluates again. */
    method PromoteNext(c: RequestClasses, bound: nat, mode: Mode, last: Evaluated) returns (moved: bool, r: Evaluated)
      requires Valid() && Within64() && ValidClasses(c) && bound <= MAX_INT && !mode.Reference?
      requires last.monoCapacity > last.normalCapacity && last.normalCapacity < maxDeployCount
      requires var q := Query(c, maxDeployCount, mode, bound);
        EvaluatedAs(Top(), share, Planner.Evaluate(Top(), share, Now(), q), q, last)
      modifies this`usedVolumes, this`unusedVolumes
      ensures Valid() && disks == old(disks) && (moved ==> |unusedVolumes| < |old(unusedVolumes)|)
      ensures var q := Query(c, maxDeployCount, mode, bound);
        Planner.Promote(Top(), share, old(Now()), q) ==
          if moved then Planner.Promote(Top(), share, Now(), q) else Outcome(Now(), Planner.Evaluate(Top(), share, Now(), q))
      ensures var q := Query(c, maxDeployCount, mode, bound);
        EvaluatedAs(Top(), share, Planner.Evaluate(Top(), share, Now(), q), q, r)
    {
      var minNormalRequestSize := MAX_INT;
      if c.normal != [] {
        minNormalRequestSize := c.normal[0].size;
      }
      PromoteStep(Top(), share, Now(), Query(c, maxDeployCount, mode, bound), last);
      var k := SearchBySize(minNormalRequestSize);
      if k == |unusedVolumes| {
        return false, last;
      }
      MoveToUsed(k);
      r := Evaluate(c, bound, mode);
      moved := true;
    }

    /** Moves unused volumes to the used ones while that may help, and evaluates what it ends with. */
    method Promote(c: RequestClasses, bound: nat, mode: Mode) returns (r: Evaluated)
      requires Valid() && Within64() && ValidClasses(c) && bound <= MAX_INT && !mode.Reference?
      modifies this`usedVolumes, this`unusedVolumes
      ensures Valid() && disks == old(disks)
      ensures var q := Query(c, maxDeployCount, mode, bound);
        Planner.Promote(Top(), share, old(Now()), q) == Outcome(Now(), Planner.Evaluate(Top(), share, Now(), q))
      ensures var q := Query(c, maxDeployCount, mode, bound);
        EvaluatedAs(Top(), share, Planner.Evaluate(Top(), share, Now(), q), q, r)
    {
      ghost var p, l, q := Now(), Top(), Query(c, maxDeployCount, mode, bound);
      r := Evaluate(c, bound, mode);
      while r.monoCapacity > r.normalCapacity && r.normalCapacity < maxDeployCount
        invariant Valid() && disks == old(disks)
        invariant Planner.Promote(l, share, p, q) == Planner.Promote(l, share, Now(), q)
        invariant EvaluatedAs(l, share, Planner.Evaluate(l, share, Now(), q), q, r)
        decreases |unusedVolumes|
      {
        var moved;
        moved, r := PromoteNext(c, bound, mode, r);
        if !moved {
          return;
        }
      }
      PromoteEnd(l, share, Now(), q, r);
    }

    /** The bound on the number of normal plans that can matter. */
    method NormalBoundOf(c: RequestClasses) returns (bound: nat)
      ensures bound == NormalBound(c, maxDeployCount, |unusedVolumes|)
    {
      if c.mono == [] {
        return maxDeployCount;
      }
      if !AnyRequireIOPS(c.mono) || (!AnyRequireIOPS(c.normal) && !AnyRequireIOPS(c.mount)) {
        return Max(maxDeployCount, |unusedVolumes| + 1);
      }
      return MAX_INT;
    }

    /** Takes the bytes of every entry of the plans off its volume. */
    method SubtractPlans(sizes: map<string, int>, plans: seq<VolumePlan>) returns (left: map<string, int>)
      requires forall plan, e :: plan in plans && e in plan ==> e.device in sizes
      ensures left.Keys == sizes.Keys && forall d :: d in sizes ==> left[d] == sizes[d] - BytesOn(Flat(plans), d)
    {
      left := sizes;
      for i := 0 to |plans|
        invariant left.Keys == sizes.Keys
        invariant forall d :: d in sizes ==> left[d] == sizes[d] - BytesOn(Flat(plans[..i]), d)
      {
        var plan := plans[i];
        FlatNext(plans, i);
        assert plan in plans;
        ghost var before := left;
        for k := 0 to |plan|
          invariant left.Keys == sizes.Keys
          invariant forall d :: d in sizes ==> left[d] == before[d] - BytesOn(plan[..k], d)
        {
          var e := plan[k];
          assert e in plan && plan[..k + 1] == plan[..k] + [e];
          forall d ensures BytesOn(plan[..k + 1], d) == BytesOn(plan[..k], d) + if e.device == d then e.size else 0 {
            BytesAppend(plan[..k], e, d);
          }
          left := left[e.device := left[e.device] - e.size];
        }
        assert plan[..|plan|] == plan;
        forall d ensures BytesOn(Flat(plans[..i + 1]), d) == BytesOn(Flat(plans[..i]), d) + BytesOn(plan, d) {
          BytesConcat(Flat(plans[..i]), plan, d);
        }
      }
      assert plans[..|plans|] == plans;
    }

    /** slices.MaxFunc by remaining size: the first of the largest. */
    method LargestLeft(all: seq<Volume>, left: map<string, int>, ghost es: seq<Entry>) returns (device: string)
      requires all != [] && forall v :: v in all ==> v.device in left && left[v.device] == v.size - BytesOn(es, v.device)
      ensures device == FirstLargest(DebitVolumes(all, es)).device
    {
      hide *;
      ghost var d := DebitVolumes(all, es);
      assert |d| == |all| && forall k :: 0 <= k < |all| ==> all[k].device in left && d[k] == Volume(all[k].device, left[all[k].device]) by {
        assert forall k :: 0 <= k < |all| ==> all[k] in all;
      }
      var best := Volume(all[0].device, left[all[0].device]);
      FirstAlone(d);
      for i := 1 to |all|
        invariant best == FirstLargest(d[..i])
      {
        LargestNext(d, i);
        if left[all[i].device] > best.size {
          best := Volume(all[i].device, left[all[i].device]);
        }
      }
      assert d[..|all|] == d;
      device := best.device;
    }

    /** Pins every unlimited request to the volume that is largest once all plans of both kinds are taken off. */
    method GetUnlimitedPlans(normalPlans: seq<VolumePlan>, monoPlans: seq<VolumePlan>, unlimitedRequests: seq<VolumeBinding>, capacity: nat)
      returns (r: Result<seq<VolumePlan>>)
      requires Valid() && AllOnHost(Now(), normalPlans) && AllOnHost(Now(), monoPlans)
      ensures r == PinnedPlans(Now(), normalPlans, monoPlans, unlimitedRequests, capacity)
    {
      if unlimitedRequests == [] {
        return Ok(seq(capacity, i => []));
      }
      var allVolumes := usedVolumes[..] + unusedVolumes;
      if allVolumes == [] {
        return Err(ErrInsufficientResource);
      }
      var sizes: map<string, int> := map[];
      for i := 0 to |allVolumes|
        invariant forall k :: 0 <= k < i ==> allVolumes[k].device in sizes && sizes[allVolumes[k].device] == allVolumes[k].size
      {
        assert forall k :: 0 <= k < i && allVolumes[k].device == allVolumes[i].device ==> allVolumes[k].size == allVolumes[i].size by {
          AllVolumesDistinct(Now());
        }
        sizes := sizes[allVolumes[i].device := allVolumes[i].size];
      }
      DevicesListed(Now(), sizes.Keys);
      var left := SubtractPlans(sizes, normalPlans);
      left := SubtractPlans(left, monoPlans);
      forall d ensures BytesOn(Flat(normalPlans) + Flat(monoPlans), d) == BytesOn(Flat(normalPlans), d) + BytesOn(Flat(monoPlans), d) {
        BytesConcat(Flat(normalPlans), Flat(monoPlans), d);
      }
      var device := LargestLeft(allVolumes, left, Flat(normalPlans) + Flat(monoPlans));
      r := Ok(seq(capacity, i => UnlimitedEntries(unlimitedRequests, device)));
    }

    /** Merges the parts of plan i. */
    method AssembleOne(ghost o: Outcome, ghost q: Query, r: Evaluated, unlimited: VolumePlan, i: nat) returns (plan: Deployment)
      requires WellShaped(o, q) && q.mode.Planning? && EvaluatedAs(Top(), share, o.eval, q, r) && i < PlanCount(o, q)
      requires Unlike(q.classes.normal + q.classes.mono + q.classes.unlimited) && unlimited == UnlimitedPart(share, o, q)
      ensures plan == PlanAt(Top(), share, o, q, i)
    {
      PartsMake(Top(), share, o, q, r, i);
      hide *;
      var volumes := Merge(r.normalVolumes[i], r.monoVolumes[i]);
      volumes := Merge(volumes, unlimited);
      var planDisks := Disks.Add(r.normalDisks[i], r.monoDisks[i]);
      plan := Deployment(volumes, planDisks);
    }

    /** Merges the parts of the first count plans. */
    method Assemble(ghost o: Outcome, ghost q: Query, r: Evaluated, unlimited: seq<VolumePlan>, count: nat)
      returns (plans: seq<Deployment>)
      requires WellShaped(o, q) && q.mode.Planning? && EvaluatedAs(Top(), share, o.eval, q, r) && count == PlanCount(o, q)
      requires Unlike(q.classes.normal + q.classes.mono + q.classes.unlimited)
      requires |unlimited| == count && forall i :: 0 <= i < count ==> unlimited[i] == UnlimitedPart(share, o, q)
      ensures plans == Plans(Top(), share, o, q)
    {
      hide EvaluatedAs, WellShaped, PlanAt, Unlike, UnlimitedPart, PlanCount;
      plans := [];
      for i := 0 to count
        invariant |plans| == i && forall k :: 0 <= k < i ==> plans[k] == PlanAt(Top(), share, o, q, k)
      {
        var plan := AssembleOne(o, q, r, unlimited[i], i);
        plans := plans + [plan];
      }
    }

    /** The plans for request classes that need volumes or quota. */
    method PlanClasses(c: RequestClasses) returns (plans: seq<Deployment>)
      requires Valid() && Within64() && |unusedVolumes| < MAX_INT && ValidClasses(c) && Unlike(c.normal + c.mono + c.unlimited)
      requires !NoVolumes(Now(), c)
      modifies this`usedVolumes, this`unusedVolumes
      ensures disks == old(disks)
      ensures var q := Query(c, maxDeployCount, Planning, NormalBound(c, maxDeployCount, |old(unusedVolumes)|));
        plans == Plans(Top(), share, Planner.Promote(Top(), share, old(Now()), q), q)
    {
      ghost var p := Now();
      var bound := NormalBoundOf(c);
      var r := Promote(c, bound, Planning);
      ghost var q := Query(c, maxDeployCount, Planning, bound);
      ghost var o := Outcome(Now(), Planner.Evaluate(Top(), share, Now(), q));
      var best := Min(Min(r.normalCapacity, r.monoCapacity), maxDeployCount);
      Ready(Top(), share, p, o, q, r, best);
      assert best == PlanCount(o, q);
      hide *;
      var unlimited := GetUnlimitedPlans(r.normalVolumes, r.monoVolumes, c.unlimited, best);
      plans := [];
      if unlimited.Err? {
        assert false;
      } else {
        plans := Assemble(o, q, r, unlimited.value, best);
      }
    }

    /** The plans of as many workloads as the host can take, at most maxDeployCount. */
    method GetVolumePlans(requests: seq<VolumeBinding>) returns (plans: seq<Deployment>)
      requires Valid() && Within64() && |unusedVolumes| < MAX_INT && ValidRequests(requests)
      modifies this`usedVolumes, this`unusedVolumes
      ensures disks == old(disks)
      ensures plans == Schedule(Top(), share, old(Now()), requests, maxDeployCount, Planning)
    {
      if !NeedSchedule(requests) {
        return seq(maxDeployCount, i => Deployment([], []));
      }
      var c := ClassifyVolumeBindings(requests);
      ClassifyValid(requests);
      ClassesUnlike(requests);
      if |c.normal| + |c.mono| + |c.unlimited| > 0 && |unusedVolumes| + usedVolumes.Length == 0 {
        return [];
      }
      plans := PlanClasses(c);
    }

    /** How many plans there are for request classes that need volumes or quota. */
    method CountClasses(c: RequestClasses) returns (capacity: nat)
      requires Valid() && Within64() && |unusedVolumes| < MAX_INT && ValidClasses(c)
      modifies this`usedVolumes, this`unusedVolumes
      ensures disks == old(disks)
      ensures var q := Query(c, maxDeployCount, Counting, NormalBound(c, maxDeployCount, |old(unusedVolumes)|));
        capacity == PlanCount(Planner.Promote(Top(), share, old(Now()), q), q)
    {
      var bound := NormalBoundOf(c);
      var r := Promote(c, bound, Counting);
      capacity := Min(Min(r.normalCapacity, r.monoCapacity), maxDeployCount);
    }

    /** How many plans GetVolumePlans would return. */
    method GetVolumeCapacity(requests: seq<VolumeBinding>) returns (capacity: nat)
      requires Valid() && Within64() && |unusedVolumes| < MAX_INT && ValidRequests(requests)
      modifies this`usedVolumes, this`unusedVolumes
      ensures disks == old(disks)
      ensures capacity == Capacity(Top(), share, old(Now()), requests, maxDeployCount)
    {
      if !NeedSchedule(requests) {
        return maxDeployCount;
      }
      var c := ClassifyVolumeBindings(requests);
      ClassifyValid(requests);
      if |c.normal| + |c.mono| + |c.unlimited| > 0 && |unusedVolumes| + usedVolumes.Length == 0 {
        return 0;
      }
      capacity := CountClasses(c);
    }
  }

  lemma AllVolumesDistinct(p: Pool)
    requires Distinct(p.used) && Distinct(p.unused) && Disjoint(p.used, p.unused)
    ensures Distinct(p.used + p.unused)
    ensures forall v, w :: v in p.used + p.unused && w in p.used + p.unused && v.device == w.device ==> v == w
  {
    var all := p.used + p.unused;
    forall i, j | 0 <= i < j < |all| ensures Apart(all[i], all[j]) {
      assert j < |p.used| ==> Apart(p.used[i], p.used[j]);
      assert i >= |p.used| ==> Apart(p.unused[i - |p.used|], p.unused[j - |p.used|]);
      assert i < |p.used| <= j ==> Apart(all[i], all[j]);
    }
    forall v, w | v in all && w in all && v.device == w.device ensures v == w {
      SameVolume(p, v, w);
    }
  }

  lemma DevicesListed(p: Pool, devices: set<string>)
    requires forall v :: v in p.used + p.unused ==> v.device in devices
    ensures forall d :: OnHost(p, d) ==> d in devices
  {
    forall d | OnHost(p, d) ensures d in devices {
      var v :| (v in p.used || v in p.unused) && v.device == d;
      assert v in p.used + p.unused;
    }
  }

  /** While more monopoly than normal plans are possible promotion goes on with the next volume, if there is one. */
  lemma PromoteStep(l: Topology, share: Share, p: Pool, q: Query, r: Evaluated)
    requires EvaluatedAs(l, share, Planner.Evaluate(l, share, p, q), q, r) && !q.mode.Reference?
    requires r.monoCapacity > r.normalCapacity && r.normalCapacity < q.maxCount
    ensures var k := Candidate(p, q.classes);
      Planner.Promote(l, share, p, q) ==
        if k < |p.unused| then Planner.Promote(l, share, Move(p, k), q) else Outcome(p, Planner.Evaluate(l, share, p, q))
  {
  }

  lemma PromoteEnd(l: Topology, share: Share, p: Pool, q: Query, r: Evaluated)
    requires EvaluatedAs(l, share, Planner.Evaluate(l, share, p, q), q, r) && !q.mode.Reference?
    requires !(r.monoCapacity > r.normalCapacity && r.normalCapacity < q.maxCount)
    ensures Planner.Promote(l, share, p, q) == Outcome(p, Planner.Evaluate(l, share, p, q))
  {
  }

  lemma SafeTimes(qs: seq<Quota>, sums: map<nat, Quota>, bound: int, capacity: int)
    requires (forall j :: j in sums ==> j < |qs|) && NothingOverflows(qs, sums) && LargestCount(qs, sums, bound, capacity)
    ensures forall j :: j in sums ==> InRange(sums[j].Times(capacity - 1))
  {
    forall j | j in sums ensures InRange(sums[j].Times(capacity - 1)) {
      assert SafeSum(qs[j], sums[j]);
    }
  }

  lemma FlatNothing(es: seq<Entry>)
    ensures Flat([]) + es == es && es + [] == es
  {
  }

  lemma PlanSkips(l: Topology, plan: seq<Disk>, e: Entry)
    requires !e.binding.RequireIOPS()
    ensures Accumulate(l, plan, e) == plan
  {
  }

  lemma QualifiedByDisk(ds: seq<Disk>, disk: Option<nat>, path: string, req: VolumeBinding)
    requires disk == TopologyAt(LayoutOf(ds)).Disk(path)
    ensures QuotaQualified(ds, disk, req) == Qualified(TopologyAt(LayoutOf(ds)), QuotasOf(ds), path, req)
  {
  }

  lemma NoneLeft(l: Topology, qs: seq<Quota>, req: VolumeBinding, vs: seq<Volume>, heap: seq<Volume>, aside: seq<Volume>)
    requires Popped(l, qs, req, vs, heap, aside) && heap == []
    ensures forall v :: v in vs ==> !Fits(l, qs, v, req)
  {
    forall v | v in vs ensures v in aside {
      assert v in multiset(vs);
    }
  }

  /** Taking volumes out of the heap: what is left and what was set aside make up vs, and nothing set aside fits. */
  ghost predicate Popped(l: Topology, qs: seq<Quota>, req: VolumeBinding, vs: seq<Volume>, heap: seq<Volume>, aside: seq<Volume>) {
    && multiset(heap) + multiset(aside) == multiset(vs) && |heap| + |aside| == |vs|
    && forall v :: v in aside ==> !Fits(l, qs, v, req)
  }

  /** The least volume left is the best fit when it fits, and can be set aside when it does not. */
  lemma LeastOfPopped(l: Topology, qs: seq<Quota>, req: VolumeBinding, vs: seq<Volume>, heap: seq<Volume>,
      rest: seq<Volume>, aside: seq<Volume>, x: Volume)
    requires Popped(l, qs, req, vs, heap, aside)
    requires multiset(rest) + multiset{x} == multiset(heap) && forall v :: v in heap ==> Leq(x, v)
    ensures Fits(l, qs, x, req) ==> BestFit(l, qs, vs, req, x)
    ensures !Fits(l, qs, x, req) ==> Popped(l, qs, req, vs, rest, aside + [x])
  {
    assert |multiset(rest)| + 1 == |multiset(heap)|;
    assert x in multiset(heap);
    forall w | w in vs ensures w in heap || w in aside {
      assert w in multiset(vs);
    }
    assert x in multiset(vs);
  }
}
