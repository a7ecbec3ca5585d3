/** Deploying on a node record: how many workloads fit, allocating them, and what the record is after they are committed. */
module Deployments {
  import opened Quantity
  import opened Options
  import opened Bindings
  import opened Disks
  import opened Volumes
  import opened Sums
  import opened Charges
  import opened Passes
  import opened Headroom
  import opened Monopoly
  import opened Planner
  import opened Soundness
  import opened Deployability
  import opened PlanContents
  import opened Resources
  import opened HostRecords
  import opened Hosts
  import opened Ledgers

  /** A workload request: volumes to place and storage to count. */
  datatype Request = Request(volumes: seq<VolumeBinding>, storage: int)

  /** Integer division towards zero. */
  function DivTrunc(a: int, b: int): int
    requires b > 0
  {
    if a >= 0 then a / b else -(-a / b)
  }

  function WorkloadOf(d: Deployment, storage: int): Workload {
    Workload(seq(|d.volumes|, i requires 0 <= i < |d.volumes| => map[d.volumes[i].device := d.volumes[i].size]), d.disks, storage)
  }

  function WorkloadsOf(ds: seq<Deployment>, storage: int): (ws: seq<Workload>)
    ensures |ws| == |ds|
  {
    seq(|ds|, i requires 0 <= i < |ds| => WorkloadOf(ds[i], storage))
  }

  /** The storage allows n workloads. */
  predicate StorageAllows(capacity: Resource, usage: Resource, storage: int, n: nat) {
    storage > 0 ==> DivTrunc(capacity.storage - usage.storage, storage) >= n
  }

  /** n times the storage fits into what is free; for no workloads at all, free storage is not overdrawn by a whole request. */
  predicate StorageFits(capacity: Resource, usage: Resource, storage: int, n: nat) {
    storage > 0 ==>
      if n == 0 then usage.storage - storage < capacity.storage else usage.storage + n * storage <= capacity.storage
  }

  lemma QuotientFits(a: nat, b: int, n: nat)
    requires b > 0
    ensures n <= a / b <==> n * b <= a
  {
    var q := a / b;
    assert a == q * b + a % b;
    if n <= q {
      assert n * b <= q * b;
    } else {
      assert n * b >= (q + 1) * b;
    }
  }

  lemma DivTruncFits(a: int, b: int, n: nat)
    requires b > 0
    ensures n <= DivTrunc(a, b) <==> if n == 0 then -b < a else n * b <= a
  {
    if a >= 0 {
      QuotientFits(a, b, n);
    } else {
      QuotientFits(-a, b, 1);
      assert n > 0 ==> n * b > 0;
    }
  }

  /** The division in the source allows exactly the counts that fit. */
  lemma StorageExact(capacity: Resource, usage: Resource, storage: int, n: nat)
    ensures StorageAllows(capacity, usage, storage, n) <==> StorageFits(capacity, usage, storage, n)
  {
    if storage > 0 {
      DivTruncFits(capacity.storage - usage.storage, storage, n);
    }
  }

  lemma AtMostWanted(l: Topology, share: Share, p: Pool, reqs: seq<VolumeBinding>, maxCount: nat, mode: Mode)
    ensures |Schedule(l, share, p, reqs, maxCount, mode)| <= maxCount
  {
    hide Promote, PlanAt, NeedSchedule, NoVolumes;
  }

  /** The storage of n workloads fits, and the scheduler finds n plans. */
  ghost predicate Allocatable(capacity: Resource, usage: Resource, share: Share, p: Pool, req: Request, n: nat) {
    && StorageFits(capacity, usage, req.storage, n)
    && |Schedule(TopologyAt(LayoutOf(capacity.disks)), share, p, req.volumes, n, Planning)| == n
  }

  /** An allocation succeeds exactly when the storage of all workloads fits and the scheduler finds a plan for each. */
  lemma AllocatesIff(capacity: Resource, usage: Resource, share: Share, p: Pool, req: Request, n: nat)
    ensures Alloc(capacity, usage, share, p, req, n).Ok? <==> Allocatable(capacity, usage, share, p, req, n)
    ensures Alloc(capacity, usage, share, p, req, n).Ok? ==> |Alloc(capacity, usage, share, p, req, n).value| == n
  {
    StorageExact(capacity, usage, req.storage, n);
    AtMostWanted(TopologyAt(LayoutOf(capacity.disks)), share, p, req.volumes, n, Planning);
    hide Schedule, StorageAllows, StorageFits;
  }

  /** doAlloc: n workloads, or an error when the storage or the volumes do not allow n. */
  ghost function Alloc(capacity: Resource, usage: Resource, share: Share, p: Pool, req: Request, n: nat): Result<seq<Workload>> {
    var ds := Schedule(TopologyAt(LayoutOf(capacity.disks)), share, p, req.volumes, n, Planning);
    if StorageAllows(capacity, usage, req.storage, n) && |ds| >= n then Ok(WorkloadsOf(ds, req.storage))
    else Err(ErrInsufficientResource)
  }

  /** A valid record of 64-bit amounts. */
  ghost predicate Usable(capacity: Resource, usage: Resource) {
    && Records.RecordValid(capacity, usage)
    && (forall c :: c in capacity.disks ==> InRange(c.quota))
    && |capacity.volumes| < MAX_INT
  }

  /** A host of a usable record works on 64-bit amounts. */
  lemma HostInRange(capacity: Resource, usage: Resource, p: Pool)
    requires Usable(capacity, usage) && HostOf(capacity, usage, p)
    ensures forall j :: 0 <= j < |p.quotas| ==> InRange(p.quotas[j])
    ensures |p.unused| < MAX_INT
  {
    forall j | 0 <= j < |p.quotas| ensures InRange(p.quotas[j]) {
      assert QuotaLeft(capacity, usage, j, p.quotas[j]) && capacity.disks[j] in capacity.disks;
      RangeByMeter(capacity.disks[j].quota);
      forall m: Meter ensures 0 <= p.quotas[j].Get(m) <= MAX_INT {
        UsageFits(capacity, usage, j, m);
      }
      RangeByMeter(p.quotas[j]);
    }
    FewVolumes(p.unused, capacity.volumes.Keys);
  }

  /** A list of distinct devices is no longer than the set they come from. */
  lemma {:induction false} FewVolumes(vs: seq<Volume>, devices: set<string>)
    requires Distinct(vs) && forall v :: v in vs ==> v.device in devices
    ensures |vs| <= |devices|
  {
    if vs != [] {
      var n := |vs| - 1;
      var front, last := vs[..n], vs[n];
      assert vs == front + [last];
      assert Distinct(front) by {
        forall i, j | 0 <= i < j < |front| ensures Apart(front[i], front[j]) {
          assert Apart(vs[i], vs[j]);
        }
      }
      forall v | v in front ensures v.device in devices - {last.device} {
        var i :| 0 <= i < n && front[i] == v;
        assert Apart(vs[i], vs[n]);
      }
      FewVolumes(front, devices - {last.device});
    }
  }

  method DoAlloc(capacity: Resource, usage: Resource, share: Share, req: Request, deployCount: nat) returns (r: Result<seq<Workload>>)
    requires Usable(capacity, usage) && ValidRequests(req.volumes) && deployCount <= MAX_INT
    ensures forall p :: HostOf(capacity, usage, p) ==> r == Alloc(capacity, usage, share, p, req, deployCount)
    ensures forall p :: HostOf(capacity, usage, p) ==> (r.Ok? <==> Allocatable(capacity, usage, share, p, req, deployCount))
    ensures r.Ok? ==> |r.value| == deployCount
    ensures r.Err? ==> r.error == ErrInsufficientResource
  {
    r := AllocOn(capacity, usage, share, req, deployCount);
    forall p: Pool {
      AllocatesIff(capacity, usage, share, p, req, deployCount);
    }
    hide Alloc, Allocatable, HostOf;
  }

  /** Checks the storage and plans on the host of a record. */
  method AllocOn(capacity: Resource, usage: Resource, share: Share, req: Request, deployCount: nat) returns (r: Result<seq<Workload>>)
    requires Usable(capacity, usage) && ValidRequests(req.volumes) && deployCount <= MAX_INT
    ensures forall p :: HostOf(capacity, usage, p) ==> r == Alloc(capacity, usage, share, p, req, deployCount)
    ensures r.Ok? ==> exists p :: HostOf(capacity, usage, p)
    ensures r.Err? ==> r.error == ErrInsufficientResource
  {
    if req.storage > 0 {
      var storageCapacity := DivTrunc(capacity.storage - usage.storage, req.storage);
      if storageCapacity < deployCount {
        return Err(ErrInsufficientResource);
      }
    }
    var h := new Host.NewHost(capacity, usage, deployCount, share);
    ghost var p := h.Now();
    HostInRange(capacity, usage, p);
    forall q | HostOf(capacity, usage, q) ensures q == p {
      HostUnique(capacity, usage, p, q);
    }
    forall j | 0 <= j < |h.disks| ensures InRange(h.disks[j].quota) {
      assert p.quotas[j] == h.disks[j].quota;
    }
    var plans := h.GetVolumePlans(req.volumes);
    if |plans| < deployCount {
      return Err(ErrInsufficientResource);
    }
    r := Ok(WorkloadsOf(plans, req.storage));
  }

  /** The count that the node advertises. */
  ghost function DeployCapacity(capacity: Resource, usage: Resource, share: Share, p: Pool, req: Request, maxCount: nat): int {
    var volumes := Capacity(TopologyAt(LayoutOf(capacity.disks)), share, p, req.volumes, maxCount);
    if req.storage > 0 then Min(volumes, DivTrunc(capacity.storage - usage.storage, req.storage)) else volumes
  }

  method GetNodeDeployCapacity(capacity: Resource, usage: Resource, share: Share, req: Request, maxDeployCount: nat) returns (r: int)
    requires Usable(capacity, usage) && ValidRequests(req.volumes) && maxDeployCount <= MAX_INT
    ensures forall p :: HostOf(capacity, usage, p) ==> r == DeployCapacity(capacity, usage, share, p, req, maxDeployCount)
    ensures forall p :: HostOf(capacity, usage, p) ==>
      forall n: nat :: n >= 1 ==> (n <= r <==> WithinBoth(capacity, usage, share, p, req, maxDeployCount, n))
  {
    r := DeployCapacityOn(capacity, usage, share, req, maxDeployCount);
    forall p, n: nat | HostOf(capacity, usage, p) && n >= 1 ensures n <= r <==> WithinBoth(capacity, usage, share, p, req, maxDeployCount, n) {
      AdvertisedExact(capacity, usage, share, p, req, maxDeployCount, n);
    }
    hide DeployCapacity, WithinBoth, HostOf;
  }

  /** Counts on the host of a record, and divides its free storage. */
  method DeployCapacityOn(capacity: Resource, usage: Resource, share: Share, req: Request, maxDeployCount: nat) returns (r: int)
    requires Usable(capacity, usage) && ValidRequests(req.volumes) && maxDeployCount <= MAX_INT
    ensures forall p :: HostOf(capacity, usage, p) ==> r == DeployCapacity(capacity, usage, share, p, req, maxDeployCount)
  {
    r := maxDeployCount;
    if NeedSchedule(req.volumes) {
      var h := new Host.NewHost(capacity, usage, maxDeployCount, share);
      ghost var p := h.Now();
      HostInRange(capacity, usage, p);
      forall q | HostOf(capacity, usage, q) ensures q == p {
        HostUnique(capacity, usage, p, q);
      }
      forall j | 0 <= j < |h.disks| ensures InRange(h.disks[j].quota) {
        assert p.quotas[j] == h.disks[j].quota;
      }
      r := h.GetVolumeCapacity(req.volumes);
    }
    if req.storage > 0 {
      r := Min(r, DivTrunc(capacity.storage - usage.storage, req.storage));
    }
  }

  /** The storage of n workloads fits, and n is within the capacity of the volumes. */
  ghost predicate WithinBoth(capacity: Resource, usage: Resource, share: Share, p: Pool, req: Request, maxCount: nat, n: nat) {
    && StorageFits(capacity, usage, req.storage, n)
    && n <= Capacity(TopologyAt(LayoutOf(capacity.disks)), share, p, req.volumes, maxCount)
  }

  /** A count is within the advertised one exactly when its storage fits and it is within the capacity of the volumes. */
  lemma AdvertisedExact(capacity: Resource, usage: Resource, share: Share, p: Pool, req: Request, maxCount: nat, n: nat)
    requires n >= 1
    ensures n <= DeployCapacity(capacity, usage, share, p, req, maxCount)
       <==> WithinBoth(capacity, usage, share, p, req, maxCount, n)
  {
    if req.storage > 0 {
      DivTruncFits(capacity.storage - usage.storage, req.storage, n);
    }
    hide Capacity, DivTrunc;
  }

  /** Storage within capacity stays so when an allocation is committed. */
  lemma AllocationStorage(capacity: Resource, usage: Resource, share: Share, p: Pool, req: Request, n: nat)
    requires usage.storage <= capacity.storage && Alloc(capacity, usage, share, p, req, n).Ok?
    ensures Calculated(None, Some(usage), Alloc(capacity, usage, share, p, req, n).value, true, true).storage <= capacity.storage
  {
    var ds := Schedule(TopologyAt(LayoutOf(capacity.disks)), share, p, req.volumes, n, Planning);
    AllocatesIff(capacity, usage, share, p, req, n);
    CommittedBalance(usage, ds, req.storage, "", ReadIOPS);
    hide Schedule, Calculated;
    assert req.storage <= 0 ==> n * req.storage <= 0;
  }

  /** Every count up to the advertised capacity of a node can be allocated on it. */
  lemma AdvertisedIsAllocatable(capacity: Resource, usage: Resource, share: Share, p: Pool, req: Request, maxCount: nat, n: nat)
    requires Usable(capacity, usage) && HostOf(capacity, usage, p) && ValidRequests(req.volumes) && maxCount <= MAX_INT
    requires n <= DeployCapacity(capacity, usage, share, p, req, maxCount)
    ensures var r := Alloc(capacity, usage, share, p, req, n); r.Ok? && |r.value| == n
  {
    HostGood(capacity, usage, p);
    CapacityIsDeployable(TopologyAt(LayoutOf(capacity.disks)), share, p, req.volumes, maxCount, n);
  }

  /** On a record, the groups of the plans take whole capacity volumes that nothing was used of. */
  lemma GroupsUntouched(capacity: Resource, usage: Resource, share: Share, p: Pool, reqs: seq<VolumeBinding>, maxCount: nat)
      returns (vs: seq<Volume>)
    requires Records.RecordValid(capacity, usage) && HostOf(capacity, usage, p) && ValidRequests(reqs) && Classify(reqs).mono != []
    ensures Exclusive(share, p, Classify(reqs),
      Schedule(TopologyAt(LayoutOf(capacity.disks)), share, p, reqs, maxCount, Planning), vs)
    ensures forall v :: v in vs ==>
      v.device in capacity.volumes && Stored(usage.volumes, v.device) == 0 && v.size == capacity.volumes[v.device]
  {
    HostGood(capacity, usage, p);
    vs := MonopolyExclusive(TopologyAt(LayoutOf(capacity.disks)), share, p, reqs, maxCount, Planning);
    hide Schedule, OwnsVolume, Classify;
  }

  // ---- Committing what was allocated

  lemma {:induction false} VolumeMaps(es: seq<Entry>, device: string)
    ensures Stored(TotalVolumes(WorkloadOf(Deployment(es, []), 0).volumes), device) == BytesOn(es, device)
  {
    if es != [] {
      var n := |es| - 1;
      var maps := WorkloadOf(Deployment(es, []), 0).volumes;
      assert maps[..n] == WorkloadOf(Deployment(es[..n], []), 0).volumes;
      VolumeMaps(es[..n], device);
    }
  }

  /** A workload's accounts are those of its deployment. */
  lemma WorkloadAccounts(d: Deployment, storage: int)
    ensures forall device :: Balance(UsageOf(WorkloadOf(d, storage)), Bytes(device)) == BytesOn(d.volumes, device)
    ensures forall disk, m :: Balance(UsageOf(WorkloadOf(d, storage)), Draw(disk, m)) == TotalQuota(d.disks, disk, m)
  {
    forall device ensures Balance(UsageOf(WorkloadOf(d, storage)), Bytes(device)) == BytesOn(d.volumes, device) {
      VolumeMaps(d.volumes, device);
      assert WorkloadOf(d, storage).volumes == WorkloadOf(Deployment(d.volumes, []), 0).volumes;
    }
  }

  lemma WorkloadsAccounts(ds: seq<Deployment>, storage: int, device: string, m: Meter)
    ensures SumBy(AccountOf(Bytes(device)), WorkloadsOf(ds, storage)) == PlansBytes(ds, device)
    ensures SumBy(AccountOf(Draw(device, m)), WorkloadsOf(ds, storage)) == PlansQuota(ds, device, m)
    ensures SumBy(AccountOf(Space), WorkloadsOf(ds, storage)) == |ds| * storage
  {
    forall d | d in ds
      ensures AccountOf(Bytes(device))(WorkloadOf(d, storage)) == BytesTaken(device)(d)
      ensures AccountOf(Draw(device, m))(WorkloadOf(d, storage)) == QuotaTaken(device, m)(d)
    {
      WorkloadAccounts(d, storage);
    }
    SumOverWorkloads(AccountOf(Bytes(device)), BytesTaken(device), ds, storage);
    SumOverWorkloads(AccountOf(Draw(device, m)), QuotaTaken(device, m), ds, storage);
    SumOverWorkloads(AccountOf(Space), (d: Deployment) => storage, ds, storage);
    SumConstant(ds, storage);
  }

  /** Summing over the workloads of deployments is summing over the deployments. */
  lemma {:induction false} SumOverWorkloads(f: Workload -> int, g: Deployment -> int, ds: seq<Deployment>, storage: int)
    requires forall d :: d in ds ==> f(WorkloadOf(d, storage)) == g(d)
    ensures SumBy(f, WorkloadsOf(ds, storage)) == SumBy(g, ds)
  {
    if ds != [] {
      var n := |ds| - 1;
      assert ds == ds[..n] + [ds[n]];
      assert WorkloadsOf(ds, storage)[..n] == WorkloadsOf(ds[..n], storage);
      SumOverWorkloads(f, g, ds[..n], storage);
    }
  }

  lemma {:induction false} SumConstant(ds: seq<Deployment>, x: int)
    ensures SumBy((d: Deployment) => x, ds) == |ds| * x
  {
    if ds != [] {
      SumConstant(ds[..|ds| - 1], x);
    }
  }

  lemma PlansOff(l: Topology, share: Share, p: Pool, reqs: seq<VolumeBinding>, maxCount: nat, mode: Mode, device: string, m: Meter)
    requires NoSlot(l, device)
    ensures PlansQuota(Schedule(l, share, p, reqs, maxCount, mode), device, m) == 0
  {
    var ds := Schedule(l, share, p, reqs, maxCount, mode);
    forall d | d in ds ensures QuotaTaken(device, m)(d) == 0 {
      var i :| 0 <= i < |ds| && ds[i] == d;
      if NeedSchedule(reqs) && !NoVolumes(p, Classify(reqs)) {
        var q := QueryFor(p, reqs, maxCount, mode);
        PlanOff(l, share, Promote(l, share, p, q), q, i, device, m);
      }
    }
    SumZero(QuotaTaken(device, m), ds);
  }

  /** The usage that committing the plans leaves. */
  function Committed(usage: Resource, ds: seq<Deployment>, storage: int): Resource {
    Calculated(None, Some(usage), WorkloadsOf(ds, storage), true, true)
  }

  /** Committing plans moves every account by what the plans take. */
  lemma CommittedBalance(usage: Resource, ds: seq<Deployment>, storage: int, d: string, m: Meter)
    ensures var after := Committed(usage, ds, storage);
      && Balance(after, Bytes(d)) == Balance(usage, Bytes(d)) + PlansBytes(ds, d)
      && Balance(after, Draw(d, m)) == Balance(usage, Draw(d, m)) + PlansQuota(ds, d, m)
      && after.storage == usage.storage + |ds| * storage
  {
    var ws := WorkloadsOf(ds, storage);
    AccumulatedBalance(usage, ws, true, Bytes(d));
    AccumulatedBalance(usage, ws, true, Draw(d, m));
    AccumulatedBalance(usage, ws, true, Space);
    WorkloadsAccounts(ds, storage, d, m);
    hide PlansBytes, PlansQuota, WorkloadsOf, SumBy, AccountOf, Accumulated;
    assert Balance(Accumulated(usage, ws, true), Space) == Accumulated(usage, ws, true).storage;
  }

  /** A usage whose accounts lie within capacity, and that has each disk once, is acceptable. */
  lemma AcceptableByAccounts(capacity: Resource, usage: Resource)
    requires UniqueDevices(capacity.disks) && UniqueDevices(usage.disks) && Records.StorageWithin(capacity, usage)
    requires forall c :: c in capacity.disks ==> c.quota.NonNegative()
    requires forall d :: d in capacity.volumes ==> 0 <= Balance(usage, Bytes(d)) <= capacity.volumes[d]
    requires forall c, m :: c in capacity.disks ==> 0 <= Balance(usage, Draw(c.device, m)) <= c.quota.Get(m)
    requires forall d, m :: !HasDevice(capacity.disks, d) ==> Balance(usage, Draw(d, m)) == 0
    ensures Records.Acceptable(capacity, usage)
  {
    forall d | d in capacity.volumes ensures capacity.volumes[d] >= 0 && (d in usage.volumes ==> 0 <= usage.volumes[d] <= capacity.volumes[d]) {
      assert 0 <= Balance(usage, Bytes(d)) <= capacity.volumes[d];
    }
    forall c, u | c in capacity.disks && u in usage.disks && c.device == u.device ensures u.quota.NonNegative() && u.quota.Leq(c.quota) {
      forall m: Meter ensures 0 <= u.quota.Get(m) <= c.quota.Get(m) {
        StoredTotal(usage.disks, u, m);
        assert 0 <= Balance(usage, Draw(c.device, m)) <= c.quota.Get(m);
      }
      NonNegativeByMeter(u.quota);
      LeqByMeter(u.quota, c.quota);
    }
    forall u | u in usage.disks && !HasDevice(capacity.disks, u.device) ensures u.quota.IsZero() {
      forall m: Meter ensures u.quota.Get(m) == 0 {
        StoredTotal(usage.disks, u, m);
        assert Balance(usage, Draw(u.device, m)) == 0;
      }
      assert u.quota.Get(ReadIOPS) == 0 && u.quota.Get(WriteIOPS) == 0 && u.quota.Get(ReadBPS) == 0 && u.quota.Get(WriteBPS) == 0;
    }
  }

  /** The plans keep every volume of the record within its capacity. */
  lemma PlansFitVolumes(capacity: Resource, usage: Resource, p: Pool, ds: seq<Deployment>, d: string)
    requires Records.RecordValid(capacity, usage) && HostOf(capacity, usage, p) && d in capacity.volumes
    requires Affordable(TopologyAt(LayoutOf(capacity.disks)), p, ds)
    ensures 0 <= Stored(usage.volumes, d) + PlansBytes(ds, d) <= capacity.volumes[d]
  {
    var v := Free(capacity, usage, d);
    assert v in p.used || v in p.unused;
    assert 0 <= PlansBytes(ds, v.device) <= v.size;
  }

  /** The plans keep every disk of the record within its capacity. */
  lemma PlansFitDisks(capacity: Resource, usage: Resource, p: Pool, ds: seq<Deployment>, c: Disk, m: Meter)
    requires Records.RecordValid(capacity, usage) && HostOf(capacity, usage, p) && c in capacity.disks
    requires Affordable(TopologyAt(LayoutOf(capacity.disks)), p, ds)
    ensures 0 <= TotalQuota(usage.disks, c.device, m) + PlansQuota(ds, c.device, m) <= c.quota.Get(m)
  {
    var l := TopologyAt(LayoutOf(capacity.disks));
    var j :| 0 <= j < |capacity.disks| && capacity.disks[j] == c;
    UsageFits(capacity, usage, j, m);
    assert QuotaLeft(capacity, usage, j, p.quotas[j]) && l.slots[j].device == c.device;
    assert 0 <= PlansQuota(ds, l.slots[j].device, m) <= p.quotas[j].Get(m);
  }

  /** Affordable plans of a record, committed, keep every account within capacity. */
  lemma AffordableFits(capacity: Resource, usage: Resource, p: Pool, ds: seq<Deployment>, storage: int)
    requires Records.RecordValid(capacity, usage) && HostOf(capacity, usage, p) && storage >= 0
    requires Affordable(TopologyAt(LayoutOf(capacity.disks)), p, ds) && UniqueDevices(Committed(usage, ds, storage).disks)
    requires forall d, m :: !HasDevice(capacity.disks, d) ==> PlansQuota(ds, d, m) == 0
    ensures Records.Acceptable(capacity, Committed(usage, ds, storage))
  {
    var after := Committed(usage, ds, storage);
    CommittedBalance(usage, ds, storage, "", ReadIOPS);
    assert |ds| * storage >= 0;
    forall d | d in capacity.volumes ensures 0 <= Balance(after, Bytes(d)) <= capacity.volumes[d] {
      PlansFitVolumes(capacity, usage, p, ds, d);
      CommittedBalance(usage, ds, storage, d, ReadIOPS);
    }
    forall c, m | c in capacity.disks ensures 0 <= Balance(after, Draw(c.device, m)) <= c.quota.Get(m) {
      PlansFitDisks(capacity, usage, p, ds, c, m);
      CommittedBalance(usage, ds, storage, c.device, m);
    }
    forall d, m | !HasDevice(capacity.disks, d) ensures Balance(after, Draw(d, m)) == 0 {
      UnknownUnused(capacity, usage, d, m);
      CommittedBalance(usage, ds, storage, d, m);
    }
    hide Committed, Affordable, HostOf;
    AcceptableByAccounts(capacity, after);
  }

  /** Whatever was allocated on a valid record, committing all of it leaves a record that validates. */
  lemma AllocationFits(capacity: Resource, usage: Resource, share: Share, p: Pool, req: Request, n: nat)
    requires Records.RecordValid(capacity, usage) && HostOf(capacity, usage, p) && ValidRequests(req.volumes) && req.storage >= 0
    requires Alloc(capacity, usage, share, p, req, n).Ok?
    ensures Records.Acceptable(capacity, Calculated(None, Some(usage), Alloc(capacity, usage, share, p, req, n).value, true, true))
  {
    var l := TopologyAt(LayoutOf(capacity.disks));
    var ds := Schedule(l, share, p, req.volumes, n, Planning);
    HostGood(capacity, usage, p);
    PlansAffordable(l, share, p, req.volumes, n, Planning);
    AllocationUnique(capacity, usage, share, p, req, n);
    forall d, m | !HasDevice(capacity.disks, d) ensures PlansQuota(ds, d, m) == 0 {
      PlansOff(l, share, p, req.volumes, n, Planning, d, m);
    }
    AffordableFits(capacity, usage, p, ds, req.storage);
  }

  lemma UnknownUnused(capacity: Resource, usage: Resource, d: string, m: Meter)
    requires Records.RecordValid(capacity, usage) && !HasDevice(capacity.disks, d)
    ensures TotalQuota(usage.disks, d, m) == 0
  {
    forall i | 0 <= i < |usage.disks| ensures usage.disks[i].device != d {
      assert usage.disks[i] in usage.disks && Records.Covered(capacity.disks, usage.disks[i]);
    }
    TotalQuotaAbsent(usage.disks, d, m);
  }

  /** Allocated disk plans list each disk once, and so does the usage with them. */
  lemma AllocationUnique(capacity: Resource, usage: Resource, share: Share, p: Pool, req: Request, n: nat)
    requires Records.RecordValid(capacity, usage) && HostOf(capacity, usage, p) && ValidRequests(req.volumes)
    ensures var ws := WorkloadsOf(Schedule(TopologyAt(LayoutOf(capacity.disks)), share, p, req.volumes, n, Planning), req.storage);
      AllUnique(ws) && UniqueDevices(Calculated(None, Some(usage), ws, true, true).disks)
  {
    var l := TopologyAt(LayoutOf(capacity.disks));
    var ds := Schedule(l, share, p, req.volumes, n, Planning);
    var ws := WorkloadsOf(ds, req.storage);
    HostGood(capacity, usage, p);
    forall w | w in ws ensures UniqueDevices(w.disks) {
      var i :| 0 <= i < |ws| && ws[i] == w;
      if NeedSchedule(req.volumes) {
        var _ := PlansComplete(l, share, p, req.volumes, n, Planning, i);
      }
    }
    AccumulatedUnique(usage, ws, true);
  }
}
