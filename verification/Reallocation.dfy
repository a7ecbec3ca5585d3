/** What reallocation guarantees: it fits, and it does not depend on the order of the origin plan's map. */
module Reallocation {
  import opened Quantity
  import opened Options
  import opened Bindings
  import opened Disks
  import opened Volumes
  import opened Sums
  import opened Charges
  import opened Passes
  import opened Reordering
  import opened Monopoly
  import opened MonoCharges
  import opened Planner
  import opened Soundness
  import opened VolumePlans
  import opened Affinity

  // ---- Order of the origin plan

  lemma MatchSame(a: VolumePlan, b: VolumePlan, req: VolumeBinding)
    requires DistinctKeys(a) && multiset(a) == multiset(b)
    ensures Match(a, req) == Match(b, req)
  {
    var r, s := Match(a, req), Match(b, req);
    if r.Some? {
      assert r.value in multiset(b);
      assert s.Some?;
    }
    if s.Some? {
      assert s.value in multiset(a);
      var i :| 0 <= i < |a| && a[i] == r.value;
      var j :| 0 <= j < |a| && a[j] == s.value;
      assert i == j;
    }
  }

  lemma {:induction false} KeptSame(reqs: seq<VolumeBinding>, a: VolumePlan, b: VolumePlan)
    requires DistinctKeys(a) && multiset(a) == multiset(b)
    ensures Kept(reqs, a) == Kept(reqs, b) && Unmatched(reqs, a) == Unmatched(reqs, b)
  {
    if reqs != [] {
      KeptSame(reqs[..|reqs| - 1], a, b);
      MatchSame(a, b, reqs[|reqs| - 1]);
    }
  }

  /** In whatever order the origin plan is ranged over, the outcome is the same. */
  lemma OriginOrder(l: Topology, share: Share, p: Pool, requests: seq<VolumeBinding>, a: VolumePlan, b: VolumePlan,
      originRequests: seq<VolumeBinding>, device: string)
    requires DistinctKeys(a) && multiset(a) == multiset(b)
    ensures Reallocate(l, share, p, requests, a, originRequests, device) == Reallocate(l, share, p, requests, b, originRequests, device)
  {
    var c := Classify(requests);
    KeptSame(c.normal, a, b);
    KeptSame(c.mono, a, b);
    KeptSame(c.unlimited, a, b);
    SumPermutation(MonoSize(), a, b);
    CreditPermutation(l, p, Given(a, originRequests), Given(b, originRequests));
    ReleasableSame(l, p, a, b, originRequests);
    RechargeSame(l, share, Credit(l, p, Given(a, originRequests)), c, a, b, device);
  }

  lemma ReleasableSame(l: Topology, p: Pool, a: VolumePlan, b: VolumePlan, originRequests: seq<VolumeBinding>)
    requires multiset(a) == multiset(b)
    ensures Releasable(l, p, a, originRequests) == Releasable(l, p, b, originRequests)
  {
    forall e ensures e in a <==> e in b {
      assert e in a <==> e in multiset(a);
      assert e in b <==> e in multiset(b);
    }
  }

  ghost predicate SameMatches(c: RequestClasses, a: VolumePlan, b: VolumePlan) {
    && Kept(c.normal, a) == Kept(c.normal, b) && Unmatched(c.normal, a) == Unmatched(c.normal, b)
    && Kept(c.mono, a) == Kept(c.mono, b) && Unmatched(c.mono, a) == Unmatched(c.mono, b)
    && Kept(c.unlimited, a) == Kept(c.unlimited, b) && Unmatched(c.unlimited, a) == Unmatched(c.unlimited, b)
    && MonoHeld(a) == MonoHeld(b)
  }

  lemma PlacedSame(l: Topology, share: Share, d: Pool, c: RequestClasses, a: VolumePlan, b: VolumePlan, device: string)
    requires SameMatches(c, a, b)
    ensures Placed(l, share, d, c, a, device) == Placed(l, share, d, c, b, device)
  {
  }

  lemma FinishSame(l: Topology, share: Share, p: Pool, c: RequestClasses, a: VolumePlan, b: VolumePlan,
      placed: VolumePlan, disks: seq<Disk>)
    requires SameMatches(c, a, b)
    ensures Finish(l, share, p, c, a, placed, disks) == Finish(l, share, p, c, b, placed, disks)
  {
    assert Anew(c, a) == Anew(c, b);
    hide Anew, Schedule, Added;
  }

  lemma RechargeSame(l: Topology, share: Share, r: Pool, c: RequestClasses, a: VolumePlan, b: VolumePlan, device: string)
    requires SameMatches(c, a, b)
    ensures Recharge(l, share, r, c, a, device) == Recharge(l, share, r, c, b, device)
  {
    var mounts, kept := MountEntries(c.mount), Kept(c.normal, a);
    assert kept == Kept(c.normal, b);
    hide SameMatches, Payable, Debit, Placed, Finish, DiskPlan, Added, MountEntries, Kept;
    PlacedSame(l, share, Debit(l, r, mounts + kept), c, a, b, device);
    match Placed(l, share, Debit(l, r, mounts + kept), c, a, device)
    case None =>
    case Some(placed) =>
      FinishSame(l, share, Debit(l, r, mounts + placed), c, a, b, placed, Added(DiskPlan(l, mounts), DiskPlan(l, placed)));
  }

  // ---- Reallocation fits

  lemma {:induction false} UnmatchedIn(reqs: seq<VolumeBinding>, origin: VolumePlan)
    ensures forall b :: b in Unmatched(reqs, origin) <==> b in reqs && Match(origin, b).None?
    ensures multiset(Unmatched(reqs, origin)) <= multiset(reqs)
  {
    if reqs != [] {
      var n := |reqs| - 1;
      assert reqs == reqs[..n] + [reqs[n]];
      UnmatchedIn(reqs[..n], origin);
    }
  }

  /** An entry with its binding's size on the device of its match. */
  ghost predicate KeptAs(origin: VolumePlan, e: Entry) {
    e.size == e.binding.size && Match(origin, e.binding).Some? && e.device == Match(origin, e.binding).value.device
  }

  lemma {:induction false} KeptIn(reqs: seq<VolumeBinding>, origin: VolumePlan)
    ensures forall e :: e in Kept(reqs, origin) ==> e.binding in reqs && KeptAs(origin, e)
  {
    if reqs != [] {
      var n := |reqs| - 1;
      assert reqs == reqs[..n] + [reqs[n]];
      KeptIn(reqs[..n], origin);
    }
  }

  lemma KeptCharges(reqs: seq<VolumeBinding>, origin: VolumePlan)
    requires ValidAll(reqs)
    ensures NonNegativeCharges(Kept(reqs, origin))
  {
    KeptIn(reqs, origin);
  }

  lemma {:induction false} NoneOfKind(reqs: seq<VolumeBinding>, k: Kind)
    requires forall b :: b in reqs ==> KindOf(b) != k
    ensures OfKind(reqs, k) == []
  {
    if reqs != [] {
      assert reqs == reqs[..|reqs| - 1] + [reqs[|reqs| - 1]];
      NoneOfKind(reqs[..|reqs| - 1], k);
    }
  }

  /** Requests to schedule anew are valid, and none of them is a mount request. */
  lemma AnewValid(requests: seq<VolumeBinding>, origin: VolumePlan)
    requires ValidRequests(requests)
    ensures var need := Anew(Classify(requests), origin);
      && ValidRequests(need) && Classify(need).mount == [] && (need != [] ==> NeedSchedule(need))
  {
    var c := Classify(requests);
    var need := Anew(c, origin);
    UnmatchedIn(c.normal, origin);
    UnmatchedIn(c.mono, origin);
    UnmatchedIn(c.unlimited, origin);
    ClassesUnlike(requests);
    var some := c.normal + c.mono + c.unlimited;
    assert multiset(need) <= multiset(some);
    SubsetUnlike(some, need);
    SortBySizeSorts(OfKind(requests, Normal));
    SortBySizeSorts(OfKind(requests, Mono));
    forall b | b in need ensures b in requests && KindOf(b) != Mount {
    }
    NoneOfKind(need, Mount);
    if need != [] {
      assert need[0] in need && need[0].RequireSchedule();
    }
  }

  /** Bindings of different destinations stay so when some are left out and the rest is reordered. */
  lemma SubsetUnlike(s: seq<VolumeBinding>, t: seq<VolumeBinding>)
    requires Unlike(s) && multiset(t) <= multiset(s)
    ensures Unlike(t)
  {
    forall i, j | 0 <= i < j < |t| ensures t[i].destination != t[j].destination {
      assert t[i] in multiset(t) && t[j] in multiset(t);
      assert t[i] in multiset(s) && t[j] in multiset(s);
      var a :| 0 <= a < |s| && s[a] == t[i];
      var b :| 0 <= b < |s| && s[b] == t[j];
      if t[i].destination == t[j].destination {
        assert a == b;
        CountTwice(t, i, j);
        OnlyOnce(s, a);
      }
    }
  }

  /** d, charged with the mount requests, is paid for by the host without the origin; its disk plan holds what it draws. */
  ghost predicate FitsOn(l: Topology, r: Pool, mount: seq<VolumeBinding>, d: Deployment) {
    PaidFor(l, r, MountEntries(mount) + d.volumes, d.disks)
  }

  /** The host pays for the entries, none of them takes from it less than nothing, and the disk plan holds what they draw. */
  ghost predicate PaidFor(l: Topology, r: Pool, es: seq<Entry>, disks: seq<Disk>) {
    Solvent(Debit(l, r, es)) && HoldsFor(l, disks, es) && HostHeld(r, es)
  }

  /** Nothing that the entries hold on the host is negative in total. */
  ghost predicate HostHeld(p: Pool, es: seq<Entry>) {
    && (forall e :: e in es ==> e.binding.quota.NonNegative())
    && (forall v :: v in p.used || v in p.unused ==> BytesOn(es, v.device) >= 0)
  }

  lemma HeldConcat(l: Topology, r: Pool, es: seq<Entry>, fs: seq<Entry>)
    requires Held(es) && HostHeld(Debit(l, r, es), fs)
    ensures HostHeld(r, es + fs)
  {
    var d := Debit(l, r, es);
    forall v | v in r.used || v in r.unused ensures BytesOn(es + fs, v.device) >= 0 {
      BytesConcat(es, fs, v.device);
      if v in r.used {
        var i :| 0 <= i < |r.used| && r.used[i] == v;
        assert d.used[i] in d.used;
      } else {
        var i :| 0 <= i < |r.unused| && r.unused[i] == v;
        assert d.unused[i] in d.unused;
      }
    }
  }

  lemma HeldSum(a: seq<Entry>, b: seq<Entry>)
    requires Held(a) && Held(b)
    ensures Held(a + b)
  {
    forall device ensures BytesOn(a + b, device) >= 0 {
      BytesConcat(a, b, device);
    }
  }

  lemma ChargesHeld(es: seq<Entry>)
    requires NonNegativeCharges(es)
    ensures Held(es)
  {
    forall device ensures BytesOn(es, device) >= 0 {
      BytesNonNegative(es, device);
    }
  }

  /** Disk plan disks holds exactly what the entries draw. */
  ghost predicate HoldsFor(l: Topology, disks: seq<Disk>, es: seq<Entry>) {
    && UniqueDevices(disks) && PlanContents.OffSlots(l, disks)
    && forall j, m :: 0 <= j < |l.slots| ==> TotalQuota(disks, l.slots[j].device, m) == QuotaOn(l, es, j, m)
  }

  /** Disk plan disks holds at least what the entries draw, and nothing off the disks of the host. */
  ghost predicate Covers(l: Topology, disks: seq<Disk>, es: seq<Entry>) {
    && UniqueDevices(disks) && PlanContents.OffSlots(l, disks)
    && forall j, m :: 0 <= j < |l.slots| ==> QuotaOn(l, es, j, m) <= TotalQuota(disks, l.slots[j].device, m)
  }

  lemma HoldsDiskPlan(l: Topology, es: seq<Entry>)
    requires UniqueSlots(l.slots) && forall e :: e in es ==> e.binding.quota.NonNegative()
    ensures HoldsFor(l, DiskPlan(l, es), es)
  {
    forall j, m | 0 <= j < |l.slots| ensures TotalQuota(DiskPlan(l, es), l.slots[j].device, m) == QuotaOn(l, es, j, m) {
      DiskPlanTotal(l, es, j, m);
    }
    forall device, m | PlanContents.NoSlot(l, device) ensures TotalQuota(DiskPlan(l, es), device, m) == 0 {
      PlanContents.DiskPlanOff(l, es, device, m);
    }
    if |l.slots| > 0 {
      DiskPlanTotal(l, es, |l.slots| - 1, ReadIOPS);
    } else {
      PlanContents.NoDiskPlan(l, es);
    }
  }

  lemma HoldsAdded(l: Topology, a: seq<Disk>, es: seq<Entry>, b: seq<Disk>, fs: seq<Entry>)
    requires HoldsFor(l, a, es) && HoldsFor(l, b, fs)
    ensures HoldsFor(l, Added(a, b), es + fs)
  {
    AddedUnique(a, b);
    forall j, m | 0 <= j < |l.slots| ensures TotalQuota(Added(a, b), l.slots[j].device, m) == QuotaOn(l, es + fs, j, m) {
      AddedTotal(a, b, l.slots[j].device, m);
      QuotaConcat(l, es, fs, j, m);
    }
    forall device, m | PlanContents.NoSlot(l, device) ensures TotalQuota(Added(a, b), device, m) == 0 {
      AddedTotal(a, b, device, m);
    }
  }

  /** The one plan scheduled for requests without mounts is paid for by the host and listed by its disk plan. */
  lemma ScheduledFits(l: Topology, share: Share, p: Pool, reqs: seq<VolumeBinding>)
    requires Good(l, p) && UniqueSlots(l.slots) && ValidRequests(reqs) && Classify(reqs).mount == [] && NeedSchedule(reqs)
    requires Schedule(l, share, p, reqs, 1, Planning) != []
    ensures var d := Schedule(l, share, p, reqs, 1, Planning)[0];
      Solvent(Debit(l, p, d.volumes)) && HoldsFor(l, d.disks, d.volumes) && HostHeld(p, d.volumes)
  {
    hide *;
    var ds := Schedule(l, share, p, reqs, 1, Planning);
    OnePlan(l, share, p, reqs);
    PlansAffordable(l, share, p, reqs, 1, Planning);
    var v := PlanContents.PlansComplete(l, share, p, reqs, 1, Planning, 0);
    assert ds == [ds[0]];
    CompleteHolds(l, share, p, Classify(reqs), ds[0], v);
    OnlyPlan(ds[0]);
    AffordableSolvent(l, p, ds, ds[0]);
    CompleteQuotas(l, share, p, reqs, ds[0], v);
    HostHeldBy(p, ds[0].volumes);
  }

  lemma HostHeldBy(p: Pool, es: seq<Entry>)
    requires forall e :: e in es ==> e.binding.quota.NonNegative()
    requires forall v :: v in p.used || v in p.unused ==> BytesOn(es, v.device) >= 0
    ensures HostHeld(p, es)
  {
  }

  /** A complete plan without mounts holds what it draws. */
  lemma CompleteHolds(l: Topology, share: Share, p: Pool, c: RequestClasses, d: Deployment, v: Volume)
    requires PlanContents.Complete(l, share, p, c, d, v) && c.mount == []
    ensures HoldsFor(l, d.disks, d.volumes)
  {
    assert MountEntries([]) == [] && d.volumes + [] == d.volumes;
    hide MonoGroup, MountEntries;
  }

  lemma OnlyPlan(d: Deployment)
    ensures forall device :: PlansBytes([d], device) == BytesOn(d.volumes, device)
    ensures forall device, m :: PlansQuota([d], device, m) == TotalQuota(d.disks, device, m)
  {
    assert [] + [d] == [d];
    hide BytesOn, TotalQuota;
    forall device ensures PlansBytes([d], device) == BytesOn(d.volumes, device) {
      SumAppend(BytesTaken(device), [], d);
    }
    forall device, m ensures PlansQuota([d], device, m) == TotalQuota(d.disks, device, m) {
      SumAppend(QuotaTaken(device, m), [], d);
    }
  }

  lemma CompleteQuotas(l: Topology, share: Share, p: Pool, reqs: seq<VolumeBinding>, d: Deployment, v: Volume)
    requires ValidRequests(reqs) && PlanContents.Complete(l, share, p, Classify(reqs), d, v)
    ensures forall e :: e in d.volumes ==> e.binding.quota.NonNegative()
  {
    var c := Classify(reqs);
    ClassifyValid(reqs);
    ThreeParts(d.volumes, |c.normal|, |c.normal| + |c.mono|);
    var n, g, u := d.volumes[..|c.normal|], d.volumes[|c.normal|..|c.normal| + |c.mono|], d.volumes[|c.normal| + |c.mono|..];
    assert PlanContents.Places(n, c.normal, p) && g == MonoGroup(share, c.mono, v) && PlanContents.Places(u, c.unlimited, p);
    hide *;
    PlacesQuotas(p, c, share, n, v, u);
  }

  lemma PlacesQuotas(p: Pool, c: RequestClasses, share: Share, n: VolumePlan, v: Volume, u: VolumePlan)
    requires ValidClasses(c) && PlanContents.Places(n, c.normal, p) && PlanContents.Places(u, c.unlimited, p)
    ensures forall e :: e in n || e in MonoGroup(share, c.mono, v) || e in u ==> e.binding.quota.NonNegative()
  {
    BoundQuotas(n, c.normal);
    BoundQuotas(MonoGroup(share, c.mono, v), c.mono);
    BoundQuotas(u, c.unlimited);
  }

  lemma ThreeParts(es: VolumePlan, i: nat, j: nat)
    requires i <= j <= |es|
    ensures forall e :: e in es ==> e in es[..i] || e in es[i..j] || e in es[j..]
  {
    assert es == es[..i] + es[i..j] + es[j..];
  }

  lemma BoundQuotas(es: seq<Entry>, reqs: seq<VolumeBinding>)
    requires |es| == |reqs| && (forall k :: 0 <= k < |es| ==> es[k].binding == reqs[k]) && forall b :: b in reqs ==> b.quota.NonNegative()
    ensures forall e :: e in es ==> e.binding.quota.NonNegative()
  {
    forall e | e in es ensures e.binding.quota.NonNegative() {
      var k :| 0 <= k < |es| && es[k] == e;
      assert reqs[k] in reqs;
    }
  }

  lemma OnePlan(l: Topology, share: Share, p: Pool, reqs: seq<VolumeBinding>)
    ensures |Schedule(l, share, p, reqs, 1, Planning)| <= 1
  {
  }

  lemma AffordableSolvent(l: Topology, p: Pool, ds: seq<Deployment>, d: Deployment)
    requires Good(l, p) && Affordable(l, p, ds) && HoldsFor(l, d.disks, d.volumes)
    requires forall device :: PlansBytes(ds, device) == BytesOn(d.volumes, device)
    requires forall device, m :: PlansQuota(ds, device, m) == TotalQuota(d.disks, device, m)
    ensures Solvent(Debit(l, p, d.volumes))
    ensures forall v :: v in p.used || v in p.unused ==> BytesOn(d.volumes, v.device) >= 0
  {
    var s := Debit(l, p, d.volumes);
    forall v | v in p.used || v in p.unused ensures BytesOn(d.volumes, v.device) >= 0 {
      assert PlansBytes(ds, v.device) >= 0;
    }
    forall v | v in s.used ensures v.size >= 0 {
      var i :| 0 <= i < |s.used| && s.used[i] == v;
      assert p.used[i] in p.used && PlansBytes(ds, p.used[i].device) <= p.used[i].size;
    }
    forall v | v in s.unused ensures v.size >= 0 {
      var i :| 0 <= i < |s.unused| && s.unused[i] == v;
      assert p.unused[i] in p.unused && PlansBytes(ds, p.unused[i].device) <= p.unused[i].size;
    }
    forall j | 0 <= j < |s.quotas| ensures s.quotas[j].NonNegative() {
      forall m: Meter ensures s.quotas[j].Get(m) >= 0 {
        assert PlansQuota(ds, l.slots[j].device, m) <= p.quotas[j].Get(m);
        assert TotalQuota(d.disks, l.slots[j].device, m) == QuotaOn(l, d.volumes, j, m);
      }
      NonNegativeByMeter(s.quotas[j]);
    }
  }

  /** What was charged so far: a good host, and a disk plan that lists it. */
  ghost predicate SoFar(l: Topology, r: Pool, es: seq<Entry>, disks: seq<Disk>) {
    Good(l, Debit(l, r, es)) && HoldsFor(l, disks, es) && Held(es)
  }

  /** Pinning matched unlimited requests changes nothing. */
  lemma PinnedSoFar(l: Topology, r: Pool, es: seq<Entry>, disks: seq<Disk>, unlimited: seq<VolumeBinding>, origin: VolumePlan)
    requires SoFar(l, r, es, disks) && forall b :: b in unlimited ==> b.size == 0 && b.quota.IsZero()
    ensures SoFar(l, r, es + Kept(unlimited, origin), disks) && Debit(l, r, es + Kept(unlimited, origin)) == Debit(l, r, es)
  {
    FreeKept(l, Debit(l, r, es), unlimited, origin);
    DebitConcat(l, r, es, Kept(unlimited, origin));
    HoldsFree(l, disks, es, Kept(unlimited, origin));
    HeldSum(es, Kept(unlimited, origin));
  }

  /** A scheduled plan on top of what was charged so far. */
  lemma ScheduledSoFar(l: Topology, share: Share, r: Pool, es: seq<Entry>, disks: seq<Disk>, need: seq<VolumeBinding>)
    requires SoFar(l, r, es, disks) && UniqueSlots(l.slots) && ValidRequests(need) && Classify(need).mount == [] && NeedSchedule(need)
    requires Schedule(l, share, Debit(l, r, es), need, 1, Planning) != []
    ensures var d := Schedule(l, share, Debit(l, r, es), need, 1, Planning)[0];
      PaidFor(l, r, es + d.volumes, Added(disks, d.disks))
  {
    var d := Schedule(l, share, Debit(l, r, es), need, 1, Planning)[0];
    ScheduledFits(l, share, Debit(l, r, es), need);
    DebitConcat(l, r, es, d.volumes);
    HoldsAdded(l, disks, es, d.disks, d.volumes);
    HeldConcat(l, r, es, d.volumes);
  }

  lemma SoFarPaid(l: Topology, r: Pool, es: seq<Entry>, disks: seq<Disk>)
    requires SoFar(l, r, es, disks)
    ensures PaidFor(l, r, es, disks)
  {
  }

  lemma FinishFits(l: Topology, share: Share, r: Pool, requests: seq<VolumeBinding>, origin: VolumePlan,
      mounts: seq<Entry>, placed: VolumePlan, disks: seq<Disk>)
    requires UniqueSlots(l.slots) && ValidRequests(requests) && SoFar(l, r, mounts + placed, disks)
    requires mounts == MountEntries(Classify(requests).mount)
    ensures var f := Finish(l, share, Debit(l, r, mounts + placed), Classify(requests), origin, placed, disks);
      f.Ok? ==> FitsOn(l, r, Classify(requests).mount, f.value)
  {
    hide Anew, Schedule, Kept, ValidRequests, Classify, NeedSchedule, Debit, UniqueSlots, Held, HostHeld, SoFar, PaidFor;
    var c := Classify(requests);
    var kept := Kept(c.unlimited, origin);
    var es := mounts + placed + kept;
    var need := Anew(c, origin);
    AnewValid(requests, origin);
    ClassifyValid(requests);
    PinnedSoFar(l, r, mounts + placed, disks, c.unlimited, origin);
    assert mounts + (placed + kept) == es;
    if need != [] && Schedule(l, share, Debit(l, r, es), need, 1, Planning) != [] {
      ScheduledSoFar(l, share, r, es, disks, need);
    }
    SoFarPaid(l, r, es, disks);
    FinishOn(l, share, r, c, origin, placed, disks);
  }

  /** The outcome of finishing fits when what it consists of is paid for. */
  lemma FinishOn(l: Topology, share: Share, r: Pool, c: RequestClasses, origin: VolumePlan, placed: VolumePlan, disks: seq<Disk>)
    requires PaidFor(l, r, MountEntries(c.mount) + placed + Kept(c.unlimited, origin), disks)
    requires var p := Debit(l, r, MountEntries(c.mount) + placed); var ds := Schedule(l, share, p, Anew(c, origin), 1, Planning);
      Anew(c, origin) != [] && ds != [] ==>
        PaidFor(l, r, MountEntries(c.mount) + placed + Kept(c.unlimited, origin) + ds[0].volumes, Added(disks, ds[0].disks))
    ensures var f := Finish(l, share, Debit(l, r, MountEntries(c.mount) + placed), c, origin, placed, disks);
      f.Ok? ==> FitsOn(l, r, c.mount, f.value)
  {
    var mounts, kept := MountEntries(c.mount), Kept(c.unlimited, origin);
    var ds := Schedule(l, share, Debit(l, r, mounts + placed), Anew(c, origin), 1, Planning);
    Regroup(mounts, placed, kept);
    if Anew(c, origin) == [] {
      hide PaidFor, MountEntries, Kept, Schedule, Debit, Added;
      assert Finish(l, share, Debit(l, r, mounts + placed), c, origin, placed, disks) == Ok(Deployment(placed + kept, disks));
    } else if ds != [] {
      Regroup(mounts, placed + kept, ds[0].volumes);
      hide PaidFor, MountEntries, Kept, Schedule, Debit, Added;
      assert Finish(l, share, Debit(l, r, mounts + placed), c, origin, placed, disks)
          == Ok(Deployment(placed + kept + ds[0].volumes, Added(disks, ds[0].disks)));
    }
  }

  lemma Regroup(a: seq<Entry>, b: seq<Entry>, c: seq<Entry>)
    ensures a + (b + c) == a + b + c
  {
  }

  /** Matched unlimited requests charge nothing. */
  lemma FreeKept(l: Topology, p: Pool, unlimited: seq<VolumeBinding>, origin: VolumePlan)
    requires forall b :: b in unlimited ==> b.size == 0 && b.quota.IsZero()
    ensures var kept := Kept(unlimited, origin);
      && Debit(l, p, kept) == p && Held(kept)
      && (forall j: nat, m: Meter :: QuotaOn(l, kept, j, m) == 0)
  {
    var kept := Kept(unlimited, origin);
    KeptIn(unlimited, origin);
    forall device ensures BytesOn(kept, device) == 0 {
      SumZero(BytesAt(device), kept);
    }
    VolumesUntouched(p.used, kept);
    VolumesUntouched(p.unused, kept);
    forall j: nat, m: Meter ensures QuotaOn(l, kept, j, m) == 0 {
      SumZero(MeterAt(l, j, m), kept);
    }
    var d := DebitQuotas(l, p.quotas, kept);
    forall j | 0 <= j < |p.quotas| ensures d[j] == p.quotas[j] {
      EqualByMeter(d[j], p.quotas[j]);
    }
  }

  lemma HoldsFree(l: Topology, disks: seq<Disk>, es: seq<Entry>, fs: seq<Entry>)
    requires HoldsFor(l, disks, es) && forall j: nat, m: Meter :: QuotaOn(l, fs, j, m) == 0
    ensures HoldsFor(l, disks, es + fs)
  {
    forall j, m | 0 <= j < |l.slots| ensures TotalQuota(disks, l.slots[j].device, m) == QuotaOn(l, es + fs, j, m) {
      QuotaConcat(l, es, fs, j, m);
    }
  }

  /** The disk plan of the mounts and of what is placed. */
  lemma PlacedHolds(l: Topology, r: Pool, mounts: seq<Entry>, placed: VolumePlan)
    requires UniqueSlots(l.slots) && Good(l, Debit(l, r, mounts + placed))
    requires Held(mounts + placed)
    ensures SoFar(l, r, mounts + placed, Added(DiskPlan(l, mounts), DiskPlan(l, placed)))
  {
    forall e | e in mounts || e in placed ensures e.binding.quota.NonNegative() {
      assert e in mounts + placed;
    }
    HoldsDiskPlan(l, mounts);
    HoldsDiskPlan(l, placed);
    HoldsAdded(l, DiskPlan(l, mounts), mounts, DiskPlan(l, placed), placed);
  }

  /** The mounts and the matched normal requests, when the host can pay for them. */
  lemma FirstCharges(l: Topology, r: Pool, c: RequestClasses, origin: VolumePlan)
    requires Good(l, r) && ValidClasses(c)
    requires Payable(l, r, MountEntries(c.mount) + Kept(c.normal, origin))
    ensures Good(l, Debit(l, r, MountEntries(c.mount) + Kept(c.normal, origin)))
    ensures Held(MountEntries(c.mount) + Kept(c.normal, origin))
  {
    MountEntriesValid(c.mount);
    KeptCharges(c.normal, origin);
    ChargesHeld(MountEntries(c.mount) + Kept(c.normal, origin));
    DebitShape(r, MountEntries(c.mount) + Kept(c.normal, origin));
  }

  lemma GroupCharges(l: Topology, share: Share, d: Pool, mono: seq<VolumeBinding>, origin: VolumePlan, device: string)
    requires Good(l, d) && ValidAll(mono) && mono != [] && KeptGroup(l, share, d, mono, origin, device).Some?
    ensures var group := KeptGroup(l, share, d, mono, origin, device).value;
      Good(l, Debit(l, d, group)) && Held(group)
  {
    var v := VolumeNamed(AllVolumes(d), device).value;
    var group := MonoGroup(share, mono, v);
    assert v in d.used || v in d.unused;
    GroupGood(l, share, d, mono, v);
    forall e | e in group ensures e.binding.quota.NonNegative() {
      var i :| 0 <= i < |group| && group[i] == e;
      assert mono[i] in mono;
    }
    forall device ensures BytesOn(group, device) >= 0 {
      GroupBytes(share, mono, v, device);
    }
  }

  lemma PlacedGood(l: Topology, share: Share, r: Pool, c: RequestClasses, origin: VolumePlan, device: string)
    requires Good(l, r) && UniqueSlots(l.slots) && ValidClasses(c)
    requires Payable(l, r, MountEntries(c.mount) + Kept(c.normal, origin))
    ensures var mounts := MountEntries(c.mount);
      var placed := Placed(l, share, Debit(l, r, mounts + Kept(c.normal, origin)), c, origin, device);
      placed.Some? ==> SoFar(l, r, mounts + placed.value, Added(DiskPlan(l, mounts), DiskPlan(l, placed.value)))
  {
    var mounts, kept := MountEntries(c.mount), Kept(c.normal, origin);
    FirstCharges(l, r, c, origin);
    if Kept(c.mono, origin) == [] {
      PlacedHolds(l, r, mounts, kept);
    } else if KeptGroup(l, share, Debit(l, r, mounts + kept), c.mono, origin, device).Some? {
      GroupPlaced(l, share, r, mounts, kept, c.mono, origin, device);
    }
  }

  lemma GroupPlaced(l: Topology, share: Share, r: Pool, mounts: seq<Entry>, kept: VolumePlan,
      mono: seq<VolumeBinding>, origin: VolumePlan, device: string)
    requires Good(l, Debit(l, r, mounts + kept)) && UniqueSlots(l.slots) && ValidAll(mono) && mono != []
    requires Held(mounts + kept)
    requires KeptGroup(l, share, Debit(l, r, mounts + kept), mono, origin, device).Some?
    ensures var placed := kept + KeptGroup(l, share, Debit(l, r, mounts + kept), mono, origin, device).value;
      SoFar(l, r, mounts + placed, Added(DiskPlan(l, mounts), DiskPlan(l, placed)))
  {
    var group := KeptGroup(l, share, Debit(l, r, mounts + kept), mono, origin, device).value;
    GroupCharges(l, share, Debit(l, r, mounts + kept), mono, origin, device);
    DebitConcat(l, r, mounts + kept, group);
    HeldSum(mounts + kept, group);
    assert mounts + kept + group == mounts + (kept + group);
    hide KeptGroup, Good, Held, SoFar, Debit, DiskPlan, Added;
    PlacedHolds(l, r, mounts, kept + group);
  }

  lemma RechargeFits(l: Topology, share: Share, r: Pool, requests: seq<VolumeBinding>, origin: VolumePlan, device: string)
    requires Good(l, r) && UniqueSlots(l.slots) && ValidRequests(requests)
    ensures var f := Recharge(l, share, r, Classify(requests), origin, device);
      f.Ok? ==> FitsOn(l, r, Classify(requests).mount, f.value)
  {
    var c := Classify(requests);
    var mounts, kept := MountEntries(c.mount), Kept(c.normal, origin);
    ClassifyValid(requests);
    if Payable(l, r, mounts + kept) {
      var placed := Placed(l, share, Debit(l, r, mounts + kept), c, origin, device);
      PlacedGood(l, share, r, c, origin, device);
      hide SoFar, FitsOn, Payable, Finish, Good, UniqueSlots, ValidClasses, ValidRequests, Placed, Classify, Kept, MountEntries, Debit;
      if placed.Some? {
        FinishFits(l, share, r, requests, origin, mounts, placed.value, Added(DiskPlan(l, mounts), DiskPlan(l, placed.value)));
      }
    }
  }

  /**
   * When reallocation succeeds, the host without the origin pays for the new plan and the new mount requests on every
   * volume and every disk, and the new disk plan holds exactly what they draw.
   */
  lemma ReallocationFits(l: Topology, share: Share, p: Pool, requests: seq<VolumeBinding>, origin: VolumePlan,
      originRequests: seq<VolumeBinding>, device: string)
    requires Good(l, p) && UniqueSlots(l.slots) && ValidRequests(requests) && NeedSchedule(requests)
    requires Held(Given(origin, originRequests)) && Reallocate(l, share, p, requests, origin, originRequests, device).Ok?
    ensures FitsOn(l, Credit(l, p, Given(origin, originRequests)), Classify(requests).mount,
      Reallocate(l, share, p, requests, origin, originRequests, device).value)
  {
    CreditGood(l, p, Given(origin, originRequests));
    RechargeFits(l, share, Credit(l, p, Given(origin, originRequests)), requests, origin, device);
  }
}
