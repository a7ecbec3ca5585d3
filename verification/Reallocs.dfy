/** Reallocating on a node record. */
module Reallocs {
  import opened Quantity
  import opened Options
  import opened Bindings
  import opened Disks
  import opened Volumes
  import opened Sums
  import opened Charges
  import opened Passes
  import opened Reordering
  import opened Monopoly
  import opened Headroom
  import opened Planner
  import opened Affinity
  import opened Reallocation
  import opened Picks
  import opened Fixpoint
  import opened Resources
  import opened HostRecords
  import opened Hosts
  import opened HostAffinity
  import opened Serving
  import opened Ledgers
  import opened Deployments

  /** What a workload was given: its requests, its plans and its storage. */
  datatype Origin = Origin(requests: seq<VolumeBinding>, plan: Deployment, storage: int)

  function OriginWorkload(o: Origin): Workload {
    WorkloadOf(o.plan, o.storage)
  }

  /** The origin's disk plan holds at least what its plan and its mount requests draw, and the usage includes the origin. */
  ghost predicate Included(capacity: Resource, usage: Resource, o: Origin) {
    var given := Given(o.plan.volumes, o.requests);
    && Held(given) && Covers(TopologyAt(LayoutOf(capacity.disks)), o.plan.disks, given)
    && forall a: Account :: Balance(UsageOf(OriginWorkload(o)), a) <= Balance(usage, a)
  }

  /** The usage after the delta from an origin to its replacement. */
  function Replaced(usage: Resource, o: Origin, target: Workload): Resource {
    Calculated(None, Some(usage), [Delta(OriginWorkload(o), target)], true, true)
  }

  lemma ReplacedBalance(usage: Resource, o: Origin, target: Workload, a: Account)
    ensures Balance(Replaced(usage, o, target), a) == Balance(usage, a) - Balance(UsageOf(OriginWorkload(o)), a) + Balance(UsageOf(target), a)
  {
    var delta := Delta(OriginWorkload(o), target);
    AccumulatedBalance(usage, [delta], true, a);
    SumAppend(AccountOf(a), [], delta);
    assert [] + [delta] == [delta];
    DeltaBalance(OriginWorkload(o), target, a);
  }

  lemma NoMountBytes(mounts: seq<VolumeBinding>, es: seq<Entry>, device: string)
    ensures BytesOn(MountEntries(mounts) + es, device) == BytesOn(es, device)
  {
    BytesConcat(MountEntries(mounts), es, device);
    SumZero(BytesAt(device), MountEntries(mounts));
  }

  /** What is free of a volume, with the origin given back, covers the new plan. */
  lemma BytesFit(capacity: Resource, usage: Resource, p: Pool, o: Origin, requests: seq<VolumeBinding>, d: Deployment, device: string)
    requires Records.RecordValid(capacity, usage) && HostOf(capacity, usage, p) && Included(capacity, usage, o) && device in capacity.volumes
    requires FitsOn(TopologyAt(LayoutOf(capacity.disks)), Credit(TopologyAt(LayoutOf(capacity.disks)), p, Given(o.plan.volumes, o.requests)),
      Classify(requests).mount, d)
    ensures 0 <= BytesOn(d.volumes, device) <= capacity.volumes[device] - Stored(usage.volumes, device) + BytesOn(o.plan.volumes, device)
  {
    var l := TopologyAt(LayoutOf(capacity.disks));
    var r := Credit(l, p, Given(o.plan.volumes, o.requests));
    var all := MountEntries(Classify(requests).mount) + d.volumes;
    var v := Free(capacity, usage, device);
    NoMountBytes(Classify(o.requests).mount, o.plan.volumes, device);
    NoMountBytes(Classify(requests).mount, d.volumes, device);
    assert v in p.used || v in p.unused;
    CreditedSolvent(l, p, Given(o.plan.volumes, o.requests), all, v);
  }

  lemma CreditedSolvent(l: Topology, p: Pool, given: seq<Entry>, all: seq<Entry>, v: Volume)
    requires Solvent(Debit(l, Credit(l, p, given), all)) && HostHeld(Credit(l, p, given), all) && (v in p.used || v in p.unused)
    ensures 0 <= BytesOn(all, v.device) <= v.size + BytesOn(given, v.device)
  {
    var r := Credit(l, p, given);
    var s := Debit(l, r, all);
    if v in p.used {
      var i :| 0 <= i < |p.used| && p.used[i] == v;
      assert r.used[i] in r.used && s.used[i] in s.used;
    } else {
      var i :| 0 <= i < |p.unused| && p.unused[i] == v;
      assert r.unused[i] in r.unused && s.unused[i] in s.unused;
    }
  }

  /** What is free of a disk, with the origin given back, covers the new plan. */
  lemma QuotaFits(capacity: Resource, usage: Resource, p: Pool, o: Origin, requests: seq<VolumeBinding>, d: Deployment, j: nat, m: Meter)
    requires Records.RecordValid(capacity, usage) && HostOf(capacity, usage, p) && Included(capacity, usage, o) && j < |capacity.disks|
    requires FitsOn(TopologyAt(LayoutOf(capacity.disks)), Credit(TopologyAt(LayoutOf(capacity.disks)), p, Given(o.plan.volumes, o.requests)),
      Classify(requests).mount, d)
    ensures var device := capacity.disks[j].device;
      0 <= TotalQuota(d.disks, device, m)
        <= capacity.disks[j].quota.Get(m) - TotalQuota(usage.disks, device, m) + TotalQuota(o.plan.disks, device, m)
  {
    var l := TopologyAt(LayoutOf(capacity.disks));
    var given := Given(o.plan.volumes, o.requests);
    var all := MountEntries(Classify(requests).mount) + d.volumes;
    var s := Debit(l, Credit(l, p, given), all);
    assert QuotaLeft(capacity, usage, j, p.quotas[j]) && l.slots[j].device == capacity.disks[j].device;
    MeterZero(s.quotas[j], m);
    assert s.quotas[j].Get(m) == p.quotas[j].Get(m) + QuotaOn(l, given, j, m) - QuotaOn(l, all, j, m);
    forall e | e in all ensures MeterAt(l, j, m)(e) >= 0 {
      MeterZero(e.binding.quota, m);
    }
    SumNonNegative(MeterAt(l, j, m), all);
  }

  /** Committing the delta of a reallocation that fits leaves a record that validates. */
  lemma ReplacementFits(capacity: Resource, usage: Resource, p: Pool, o: Origin, requests: seq<VolumeBinding>, d: Deployment, storage: int)
    requires Records.RecordValid(capacity, usage) && HostOf(capacity, usage, p) && Included(capacity, usage, o) && storage >= 0
    requires FitsOn(TopologyAt(LayoutOf(capacity.disks)), Credit(TopologyAt(LayoutOf(capacity.disks)), p, Given(o.plan.volumes, o.requests)),
      Classify(requests).mount, d)
    ensures Records.Acceptable(capacity, Replaced(usage, o, WorkloadOf(d, storage)))
  {
    var target := WorkloadOf(d, storage);
    var after := Replaced(usage, o, target);
    ReplacedUnique(capacity, usage, o, d, storage);
    WorkloadAccounts(d, storage);
    WorkloadAccounts(o.plan, o.storage);
    ReplacedBalance(usage, o, target, Space);
    assert Balance(UsageOf(OriginWorkload(o)), Space) <= Balance(usage, Space);
    forall device | device in capacity.volumes ensures 0 <= Balance(after, Bytes(device)) <= capacity.volumes[device] {
      BytesFit(capacity, usage, p, o, requests, d, device);
      ReplacedBalance(usage, o, target, Bytes(device));
      assert Balance(UsageOf(OriginWorkload(o)), Bytes(device)) <= Balance(usage, Bytes(device));
    }
    forall c, m | c in capacity.disks ensures 0 <= Balance(after, Draw(c.device, m)) <= c.quota.Get(m) {
      var j :| 0 <= j < |capacity.disks| && capacity.disks[j] == c;
      QuotaFits(capacity, usage, p, o, requests, d, j, m);
      ReplacedBalance(usage, o, target, Draw(c.device, m));
      assert Balance(UsageOf(OriginWorkload(o)), Draw(c.device, m)) <= Balance(usage, Draw(c.device, m));
    }
    forall device, m | !HasDevice(capacity.disks, device) ensures Balance(after, Draw(device, m)) == 0 {
      UnknownUnused(capacity, usage, device, m);
      ReplacedBalance(usage, o, target, Draw(device, m));
      assert PlanContents.NoSlot(TopologyAt(LayoutOf(capacity.disks)), device);
    }
    AcceptableByAccounts(capacity, after);
  }

  lemma ReplacedUnique(capacity: Resource, usage: Resource, o: Origin, d: Deployment, storage: int)
    requires UniqueDevices(usage.disks) && UniqueDevices(o.plan.disks) && UniqueDevices(d.disks)
    ensures UniqueDevices(Replaced(usage, o, WorkloadOf(d, storage)).disks)
  {
    var delta := Delta(OriginWorkload(o), WorkloadOf(d, storage));
    NegateUnique(o.plan.disks);
    AddedUnique(d.disks, Negate(o.plan.disks));
    AccumulatedUnique(usage, [delta], true);
  }

  // ---- Planning a reallocation

  /** The outcome of CalculateRealloc for merged requests; reschedule says whether the new requests need volumes or quota. */
  ghost function Target(capacity: Resource, usage: Resource, share: Share, p: Pool, o: Origin, requests: seq<VolumeBinding>, storage: int,
      reschedule: bool, device: string): Result<Deployment> {
    if storage - o.storage > capacity.storage - usage.storage then Err(ErrInsufficientResource)
    else if !reschedule then Ok(o.plan)
    else
      match Reallocate(TopologyAt(LayoutOf(capacity.disks)), share, p, requests, o.plan.volumes, o.requests, device)
      case Err(_) => Err(ErrInsufficientResource)
      case Ok(d) => Ok(d)
  }

  /** The storage fits in place of the origin's, and what must be rescheduled can be served. */
  ghost predicate Grantable(capacity: Resource, usage: Resource, share: Share, p: Pool, o: Origin, requests: seq<VolumeBinding>,
      storage: int, reschedule: bool, device: string) {
    && usage.storage - o.storage + storage <= capacity.storage
    && (reschedule && NeedSchedule(requests) ==>
          Serviceable(TopologyAt(LayoutOf(capacity.disks)), share, p, requests, o.plan.volumes, o.requests, device))
  }

  /** A reallocation is granted exactly when its storage fits and its requests can be served. */
  lemma TargetIff(capacity: Resource, usage: Resource, share: Share, p: Pool, o: Origin, requests: seq<VolumeBinding>, storage: int,
      reschedule: bool, device: string)
    requires Records.RecordValid(capacity, usage) && HostOf(capacity, usage, p)
    ensures Target(capacity, usage, share, p, o, requests, storage, reschedule, device).Ok?
       <==> Grantable(capacity, usage, share, p, o, requests, storage, reschedule, device)
  {
    var l := TopologyAt(LayoutOf(capacity.disks));
    HostGood(capacity, usage, p);
    if NeedSchedule(requests) {
      ReallocatesIff(l, share, p, requests, o.plan.volumes, o.requests, device);
    }
    assert !NeedSchedule(requests) ==> Reallocate(l, share, p, requests, o.plan.volumes, o.requests, device).Ok?;
    hide Reallocate, Serviceable, NeedSchedule, HostOf;
  }

  ghost predicate AnswersOn(capacity: Resource, requests: seq<VolumeBinding>, d: Deployment, answer: Deployment) {
    Answers(TopologyAt(LayoutOf(capacity.disks)), MountEntries(Classify(requests).mount), Ok(d), Ok(answer))
  }

  /** An answer fits when the outcome it answers does. */
  lemma AnswerFits(capacity: Resource, r: Pool, requests: seq<VolumeBinding>, d: Deployment, answer: Deployment)
    requires AnswersOn(capacity, requests, d, answer) && FitsOn(TopologyAt(LayoutOf(capacity.disks)), r, Classify(requests).mount, d)
    ensures FitsOn(TopologyAt(LayoutOf(capacity.disks)), r, Classify(requests).mount, answer)
  {
    var l := TopologyAt(LayoutOf(capacity.disks));
    var mounts := MountEntries(Classify(requests).mount);
    var a, b := mounts + d.volumes, mounts + answer.volumes;
    assert multiset(a) == multiset(b);
    DebitPermutation(l, r, a, b);
    forall e ensures e in a <==> e in b {
      assert e in a <==> e in multiset(a);
      assert e in b <==> e in multiset(b);
    }
    forall device ensures BytesOn(a, device) == BytesOn(b, device) {
      SumPermutation(BytesAt(device), a, b);
    }
    forall j: nat, m ensures QuotaOn(l, a, j, m) == QuotaOn(l, b, j, m) {
      SumPermutation(MeterAt(l, j, m), a, b);
    }
  }

  /** Without a request for volumes or quota the empty plan fits. */
  lemma EmptyFits(l: Topology, r: Pool, requests: seq<VolumeBinding>)
    requires Good(l, r) && ValidRequests(requests) && !NeedSchedule(requests)
    ensures FitsOn(l, r, Classify(requests).mount, Deployment([], []))
  {
    var mount := Classify(requests).mount;
    var mounts := MountEntries(mount);
    ClassifyValid(requests);
    NothingHeld(l, requests);
    Evaluations.MountEntriesFree(l, mount);
    Evaluations.FreeQuotas(l, r.quotas, mounts);
    assert mounts + [] == mounts;
    forall device ensures BytesOn(mounts, device) == 0 {
      SumZero(BytesAt(device), mounts);
    }
    VolumesUntouched(r.used, mounts);
    VolumesUntouched(r.unused, mounts);
  }

  /** When nothing is rescheduled only the storage changes. */
  lemma UnchangedFits(capacity: Resource, usage: Resource, o: Origin, storage: int)
    requires Records.RecordValid(capacity, usage) && Included(capacity, usage, o) && storage >= 0
    ensures Records.Acceptable(capacity, Replaced(usage, o, WorkloadOf(o.plan, storage)))
  {
    var target := WorkloadOf(o.plan, storage);
    var after := Replaced(usage, o, target);
    ReplacedUnique(capacity, usage, o, o.plan, storage);
    WorkloadAccounts(o.plan, storage);
    WorkloadAccounts(o.plan, o.storage);
    ReplacedBalance(usage, o, target, Space);
    assert Balance(UsageOf(OriginWorkload(o)), Space) <= Balance(usage, Space);
    forall device | device in capacity.volumes ensures 0 <= Balance(after, Bytes(device)) <= capacity.volumes[device] {
      ReplacedBalance(usage, o, target, Bytes(device));
    }
    forall c, m | c in capacity.disks ensures 0 <= Balance(after, Draw(c.device, m)) <= c.quota.Get(m) {
      var j :| 0 <= j < |capacity.disks| && capacity.disks[j] == c;
      UsageFits(capacity, usage, j, m);
      ReplacedBalance(usage, o, target, Draw(c.device, m));
    }
    forall device, m | !HasDevice(capacity.disks, device) ensures Balance(after, Draw(device, m)) == 0 {
      UnknownUnused(capacity, usage, device, m);
      ReplacedBalance(usage, o, target, Draw(device, m));
    }
    AcceptableByAccounts(capacity, after);
  }

  /** Whatever reallocation answers, committing its delta leaves a record that validates. */
  lemma AnswerValidates(capacity: Resource, usage: Resource, share: Share, p: Pool, o: Origin, requests: seq<VolumeBinding>, storage: int,
      device: string, answer: Deployment)
    requires Records.RecordValid(capacity, usage) && HostOf(capacity, usage, p) && Included(capacity, usage, o)
    requires storage >= 0 && ValidRequests(requests)
    requires Reallocate(TopologyAt(LayoutOf(capacity.disks)), share, p, requests, o.plan.volumes, o.requests, device).Ok?
    requires AnswersOn(capacity, requests,
      Reallocate(TopologyAt(LayoutOf(capacity.disks)), share, p, requests, o.plan.volumes, o.requests, device).value, answer)
    ensures Records.Acceptable(capacity, Replaced(usage, o, WorkloadOf(answer, storage)))
  {
    var l := TopologyAt(LayoutOf(capacity.disks));
    var given := Given(o.plan.volumes, o.requests);
    var d := Reallocate(l, share, p, requests, o.plan.volumes, o.requests, device).value;
    HostGood(capacity, usage, p);
    if NeedSchedule(requests) {
      ReallocationFits(l, share, p, requests, o.plan.volumes, o.requests, device);
    } else {
      CreditGood(l, p, given);
      EmptyFits(l, Credit(l, p, given), requests);
    }
    hide Reallocate, FitsOn, AnswersOn, Included, HostOf;
    AnswerFits(capacity, Credit(l, p, given), requests, d, answer);
    ReplacementFits(capacity, usage, p, o, requests, answer, storage);
  }

  /** Reallocates on the host of a record. */
  method ReallocateOn(capacity: Resource, usage: Resource, share: Share, o: Origin, requests: seq<VolumeBinding>)
      returns (found: Result<Deployment>, ghost p: Pool, ghost device: string)
    requires Usable(capacity, usage) && ValidRequests(requests) && ValidRequests(o.requests) && DistinctKeys(o.plan.volumes)
    requires Included(capacity, usage, o)
    ensures HostOf(capacity, usage, p) && MayPick(requests, o.plan.volumes, device)
    ensures var l := TopologyAt(LayoutOf(capacity.disks));
      Answers(l, MountEntries(Classify(requests).mount), Reallocate(l, share, p, requests, o.plan.volumes, o.requests, device), found)
  {
    var h := new Host.NewHost(capacity, usage, 1, share);
    p := h.Now();
    ReallocInRange(capacity, usage, p, o);
    forall j | 0 <= j < |h.disks| ensures InRange(Credit(h.Top(), p, Given(o.plan.volumes, o.requests)).quotas[j]) {
      assert p.quotas[j] == h.disks[j].quota;
    }
    found, device := GetAffinityPlan(h, requests, o.plan.volumes, o.requests);
  }

  /** The plan and the delta of a reallocation to merged requests; device is that of the matched monopoly entry come to first. */
  method PlanRealloc(capacity: Resource, usage: Resource, share: Share, o: Origin, requests: seq<VolumeBinding>,
      storage: int, reschedule: bool)
      returns (r: Result<(Deployment, Workload)>, ghost device: string)
    requires Usable(capacity, usage) && ValidRequests(requests) && ValidRequests(o.requests) && DistinctKeys(o.plan.volumes)
    requires Included(capacity, usage, o)
    ensures MayPick(requests, o.plan.volumes, device)
    ensures r.Ok? ==> if reschedule then exists p :: HostOf(capacity, usage, p) else r.value.0 == o.plan
    ensures r.Err? ==> r.error == ErrInsufficientResource
    ensures r.Ok? ==> r.value.1 == Delta(OriginWorkload(o), WorkloadOf(r.value.0, storage))
    ensures forall p :: HostOf(capacity, usage, p) ==>
      Planned(capacity, requests, Target(capacity, usage, share, p, o, requests, storage, reschedule, device), reschedule, r)
    ensures r.Ok? && storage >= 0 ==> Records.Acceptable(capacity, Replaced(usage, o, WorkloadOf(r.value.0, storage)))
    ensures r.Ok? ==> usage.storage - o.storage + storage <= capacity.storage
  {
    hide HostOf, Reallocate, Records.Acceptable, Replaced, DistinctKeys, ValidRequests, Included;
    device := SomePick(requests, o.plan.volumes);
    if storage - o.storage > capacity.storage - usage.storage {
      return Err(ErrInsufficientResource), device;
    }
    var plan := o.plan;
    if reschedule {
      var found;
      ghost var p;
      found, p, device := ReallocateOn(capacity, usage, share, o, requests);
      forall q | HostOf(capacity, usage, q) ensures q == p {
        HostUnique(capacity, usage, p, q);
      }
      if found.Err? {
        return Err(ErrInsufficientResource), device;
      }
      plan := found.value;
      if storage >= 0 {
        AnswerValidates(capacity, usage, share, p, o, requests, storage, device, plan);
      }
    } else if storage >= 0 {
      UnchangedFits(capacity, usage, o, storage);
    }
    var delta := GetDelta(OriginWorkload(o), WorkloadOf(plan, storage));
    r := Ok((plan, delta));
  }

  /** r is the outcome: the same error, the origin's plan, or an answer of the reallocation. */
  ghost predicate Planned(capacity: Resource, requests: seq<VolumeBinding>, target: Result<Deployment>,
      reschedule: bool, r: Result<(Deployment, Workload)>) {
    match target
    case Err(e) => r == Err(e)
    case Ok(d) => r.Ok? && if reschedule then AnswersOn(capacity, requests, d, r.value.0) else r.value.0 == d
  }

  /** Giving the origin back stays within 64 bits, since the usage includes it. */
  lemma ReallocInRange(capacity: Resource, usage: Resource, p: Pool, o: Origin)
    requires Usable(capacity, usage) && HostOf(capacity, usage, p) && Included(capacity, usage, o)
    ensures var r := Credit(TopologyAt(LayoutOf(capacity.disks)), p, Given(o.plan.volumes, o.requests));
      forall j :: 0 <= j < |r.quotas| ==> InRange(r.quotas[j])
    ensures |p.unused| < MAX_INT
  {
    var l := TopologyAt(LayoutOf(capacity.disks));
    var given := Given(o.plan.volumes, o.requests);
    var r := Credit(l, p, given);
    HostInRange(capacity, usage, p);
    forall j | 0 <= j < |r.quotas| ensures InRange(r.quotas[j]) {
      assert capacity.disks[j] in capacity.disks && QuotaLeft(capacity, usage, j, p.quotas[j]);
      RangeByMeter(capacity.disks[j].quota);
      RangeByMeter(p.quotas[j]);
      forall m: Meter ensures 0 <= r.quotas[j].Get(m) <= MAX_INT {
        HeldQuota(l, given, j, m);
        WorkloadAccounts(o.plan, o.storage);
        assert Balance(UsageOf(OriginWorkload(o)), Draw(l.slots[j].device, m)) <= Balance(usage, Draw(l.slots[j].device, m));
      }
      RangeByMeter(r.quotas[j]);
    }
  }

  // ---- The fixpoint on records

  /**
   * A workload deployed on one state of a node and included in the usage of a later one, possibly beside others: with the
   * same requests reallocation succeeds, and returns the same volumes and a disk plan that holds the same on every disk.
   */
  lemma DeployedIsFixed(capacity: Resource, before: Resource, p0: Pool, now: Resource, p: Pool, share: Share, reqs: seq<VolumeBinding>,
      n: nat, i: nat, origin: VolumePlan) returns (device: string)
    requires Records.RecordValid(capacity, before) && HostOf(capacity, before, p0)
    requires Records.RecordValid(capacity, now) && HostOf(capacity, now, p)
    requires ValidRequests(reqs) && NeedSchedule(reqs)
    requires i < |Schedule(TopologyAt(LayoutOf(capacity.disks)), share, p0, reqs, n, Planning)|
    requires multiset(origin) == multiset(Schedule(TopologyAt(LayoutOf(capacity.disks)), share, p0, reqs, n, Planning)[i].volumes)
    requires forall d :: BytesOn(origin, d) <= Stored(now.volumes, d)
    ensures forall e :: e in Kept(Classify(reqs).mono, origin) ==> e.device == device
    ensures var l := TopologyAt(LayoutOf(capacity.disks)); var d := Schedule(l, share, p0, reqs, n, Planning)[i];
      && HoldsFor(l, d.disks, d.volumes + MountEntries(Classify(reqs).mount))
      && SamePlan(l, Classify(reqs), d, Reallocate(l, share, p, reqs, origin, reqs, device))
  {
    var l := TopologyAt(LayoutOf(capacity.disks));
    var d := Schedule(l, share, p0, reqs, n, Planning)[i];
    HostGood(capacity, before, p0);
    HostGood(capacity, now, p);
    var v := ReallocatedToItself(l, share, p0, reqs, n, i, p, origin);
    device := v.device;
    forall e ensures e in origin <==> e in d.volumes {
      assert e in origin <==> e in multiset(origin);
      assert e in d.volumes <==> e in multiset(d.volumes);
    }
    HeldByRecord(capacity, before, p0, now, p, Classify(reqs), d, v, origin);
  }

  lemma HeldByRecord(capacity: Resource, before: Resource, p0: Pool, now: Resource, p: Pool, c: RequestClasses,
      d: Deployment, v: Volume, origin: VolumePlan)
    requires Records.RecordValid(capacity, now) && HostOf(capacity, before, p0) && HostOf(capacity, now, p)
    requires forall e :: e in d.volumes ==> PlanContents.OnHost(p0, e.device)
    requires c.mono != [] ==> v in p0.unused && BytesOn(origin, v.device) >= v.size
    requires forall x :: BytesOn(origin, x) <= Stored(now.volumes, x)
    ensures HeldBy(p, c, d, v)
  {
    forall e | e in d.volumes ensures PlanContents.OnHost(p, e.device) {
      var w :| (w in p0.used || w in p0.unused) && w.device == e.device;
      var x := Free(capacity, now, e.device);
      assert x in p.used || x in p.unused;
    }
  }
}
