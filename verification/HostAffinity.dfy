/** Reallocation on a host, in place and in whatever order the maps are ranged over. */
module HostAffinity {
  import opened Quantity
  import opened Options
  import opened Bindings
  import opened Disks
  import opened Volumes
  import opened Sums
  import opened Charges
  import opened Passes
  import opened Reordering
  import opened Monopoly
  import opened Headroom
  import opened Planner
  import opened Evaluations
  import opened Soundness
  import opened PlanContents
  import opened VolumePlans
  import opened Affinity
  import opened Reallocation
  import opened Picks
  import opened AffinityCharges
  import opened Serving
  import opened Hosts

  // ---- Finding

  lemma NamedFirst(vs: seq<Volume>, i: nat)
    requires i < |vs| && forall k :: 0 <= k < i ==> vs[k].device != vs[i].device
    ensures VolumeNamed(vs, vs[i].device) == Some(vs[i])
  {
    if i > 0 {
      NamedFirst(vs[1..], i - 1);
    }
  }

  lemma {:induction false} NamedNone(vs: seq<Volume>, device: string)
    requires forall k :: 0 <= k < |vs| ==> vs[k].device != device
    ensures VolumeNamed(vs, device) == None
  {
    if vs != [] {
      NamedNone(vs[1..], device);
    }
  }

  /** host.getVolumeByDevice: the first used volume of a device, else the first unused one. */
  method GetVolumeByDevice(h: Host, device: string) returns (r: Option<Place>)
    ensures match r
      case None => VolumeNamed(AllVolumes(h.Now()), device) == None
      case Some(at) => h.IsPlace(at) && VolumeNamed(AllVolumes(h.Now()), device) == Some(h.VolumeAt(at)) && h.VolumeAt(at).device == device
  {
    ghost var all := AllVolumes(h.Now());
    for i := 0 to h.usedVolumes.Length
      invariant forall k :: 0 <= k < i ==> all[k].device != device
    {
      assert all[i] == h.usedVolumes[i];
      if h.usedVolumes[i].device == device {
        NamedFirst(all, i);
        return Some(Used(i));
      }
    }
    for i := 0 to |h.unusedVolumes|
      invariant forall k :: 0 <= k < h.usedVolumes.Length + i ==> all[k].device != device
    {
      assert all[h.usedVolumes.Length + i] == h.unusedVolumes[i];
      if h.unusedVolumes[i].device == device {
        NamedFirst(all, h.usedVolumes.Length + i);
        return Some(Unused(i));
      }
    }
    NamedNone(all, device);
    return None;
  }

  lemma NamedIffOnHost(p: Pool, device: string)
    ensures VolumeNamed(AllVolumes(p), device).Some? <==> OnHost(p, device)
  {
    var all := AllVolumes(p);
    if OnHost(p, device) {
      var v :| (v in p.used || v in p.unused) && v.device == device;
      assert v in all;
    }
  }

  // ---- Releasing

  /** Gives quota back to a disk, when there is any to give. */
  method GiveQuota(h: Host, disk: Option<nat>, req: VolumeBinding)
    requires h.CacheAgrees() && req.quota.NonNegative()
    requires disk.Some? ==> disk.value < |h.disks|
    requires req.RequireIOPS() ==> disk.Some?
    modifies h`disks
    ensures h.CacheAgrees() && LayoutOf(h.disks) == old(LayoutOf(h.disks))
    ensures QuotasOf(h.disks) == MoreQuota(old(QuotasOf(h.disks)), disk, req.quota)
  {
    if req.RequireIOPS() {
      var j := disk.value;
      h.disks := h.disks[j := h.disks[j].(quota := h.disks[j].quota.Plus(req.quota))];
      assert LayoutOf(h.disks) == old(LayoutOf(h.disks));
    } else {
      NothingGiven(QuotasOf(h.disks), disk, req.quota);
    }
  }

  /** Gives back the quota of the old mount requests; fails on a source that no disk covers. */
  method ReleaseMounts(h: Host, mounts: seq<VolumeBinding>) returns (ok: bool)
    requires h.CacheAgrees() && ValidAll(mounts)
    modifies h`disks, h`diskByPath
    ensures h.CacheAgrees() && LayoutOf(h.disks) == old(LayoutOf(h.disks))
    ensures ok <==> OnDisks(h.Top(), MountEntries(mounts))
    ensures ok ==> h.Now() == Credit(h.Top(), old(h.Now()), MountEntries(mounts))
  {
    ghost var p, l := h.Now(), h.Top();
    CreditNil(l, p);
    assert MountEntries(mounts[..0]) == [];
    for i := 0 to |mounts|
      invariant h.CacheAgrees() && LayoutOf(h.disks) == old(LayoutOf(h.disks))
      invariant OnDisks(l, MountEntries(mounts[..i]))
      invariant h.Now() == Credit(l, p, MountEntries(mounts[..i]))
    {
      var req := mounts[i];
      ghost var e := Entry(req, req.source, 0);
      assert req in mounts && MountEntries(mounts)[i] == e;
      MountEntriesNext(mounts, i);
      CreditConcat(l, p, MountEntries(mounts[..i]), [e]);
      QuotaGivenBack(l, h.Now(), e);
      if req.RequireIOPS() {
        var disk := h.GetDiskByPath(req.source);
        if disk.None? {
          assert e in MountEntries(mounts);
          return false;
        }
        GiveQuota(h, disk, req);
      } else {
        NothingGiven(QuotasOf(h.disks), l.Disk(req.source), req.quota);
      }
    }
    assert mounts[..|mounts|] == mounts;
    ok := true;
  }

  /** Gives one origin entry back; fails when its device, or the disk of its quota, is not on the host. */
  method ReleaseEntry(h: Host, e: Entry) returns (ok: bool)
    requires h.CacheAgrees() && Shaped(h.Top(), h.Now()) && e.binding.quota.NonNegative()
    modifies h`disks, h`diskByPath, h`unusedVolumes, h.usedVolumes
    ensures h.CacheAgrees() && LayoutOf(h.disks) == old(LayoutOf(h.disks)) && h.usedVolumes == old(h.usedVolumes)
    ensures ok <==> OnHost(old(h.Now()), e.device) && (e.binding.RequireIOPS() ==> h.Top().Disk(e.device).Some?)
    ensures ok ==> h.Now() == Credit(h.Top(), old(h.Now()), [e]) && Shaped(h.Top(), h.Now())
  {
    hide Credit, OnHost, VolumeNamed, FindDisk, UniqueSlots;
    ghost var p, l := h.Now(), h.Top();
    NamedIffOnHost(p, e.device);
    var at := GetVolumeByDevice(h, e.device);
    if at.None? {
      return false;
    }
    h.SetSize(at.value, h.VolumeAt(at.value).size + e.size);
    if e.binding.RequireIOPS() {
      var disk := h.GetDiskByPath(e.device);
      if disk.None? {
        return false;
      }
      GiveQuota(h, disk, e.binding);
    } else {
      NothingGiven(p.quotas, l.Disk(e.device), e.binding.quota);
    }
    GivenBack(l, p, e, at.value.Used?, at.value.index, h.Now());
    ok := true;
  }

  /** Gives the origin plan back. */
  method ReleasePlan(h: Host, origin: VolumePlan) returns (ok: bool)
    requires h.CacheAgrees() && Shaped(h.Top(), h.Now()) && forall e :: e in origin ==> e.binding.quota.NonNegative()
    modifies h`disks, h`diskByPath, h`unusedVolumes, h.usedVolumes
    ensures h.CacheAgrees() && LayoutOf(h.disks) == old(LayoutOf(h.disks)) && h.usedVolumes == old(h.usedVolumes)
    ensures ok <==> forall e :: e in origin ==> OnHost(old(h.Now()), e.device) && (e.binding.RequireIOPS() ==> h.Top().Disk(e.device).Some?)
    ensures ok ==> h.Now() == Credit(h.Top(), old(h.Now()), origin) && Shaped(h.Top(), h.Now())
  {
    ghost var p, l := h.Now(), h.Top();
    CreditNil(l, p);
    assert origin[..0] == [];
    for i := 0 to |origin|
      invariant h.CacheAgrees() && LayoutOf(h.disks) == old(LayoutOf(h.disks)) && h.usedVolumes == old(h.usedVolumes)
      invariant h.Now() == Credit(l, p, origin[..i]) && Shaped(l, h.Now())
      invariant forall k :: 0 <= k < i ==> OnHost(p, origin[k].device) && (origin[k].binding.RequireIOPS() ==> l.Disk(origin[k].device).Some?)
    {
      assert origin[i] in origin && origin[..i + 1] == origin[..i] + [origin[i]];
      CreditConcat(l, p, origin[..i], [origin[i]]);
      SameHost(p, origin[..i], l, origin[i].device);
      ok := ReleaseEntry(h, origin[i]);
      if !ok {
        return;
      }
    }
    assert origin[..|origin|] == origin;
    ok := true;
  }

  /** Releases do not change which devices there are. */
  lemma SameHost(p: Pool, es: seq<Entry>, l: Topology, device: string)
    ensures OnHost(Credit(l, p, es), device) <==> OnHost(p, device)
  {
    CreditListedIff(p.used, es, device);
    CreditListedIff(p.unused, es, device);
  }

  lemma CreditListedIff(vs: seq<Volume>, es: seq<Entry>, device: string)
    ensures Listed(CreditVolumes(vs, es), device) <==> Listed(vs, device)
  {
    var c := CreditVolumes(vs, es);
    if Listed(vs, device) {
      var v :| v in vs && v.device == device;
      var i :| 0 <= i < |vs| && vs[i] == v;
      assert c[i] in c;
    }
    if Listed(c, device) {
      var v :| v in c && v.device == device;
      var i :| 0 <= i < |c| && c[i] == v;
      assert vs[i] in vs;
    }
  }

  // ---- Matching

  /** existing holds the entry of every key of the first n origin entries. */
  ghost predicate Indexed(origin: VolumePlan, n: nat, existing: map<(string, string, string), Entry>) {
    && n <= |origin|
    && (forall k :: 0 <= k < n ==> origin[k].binding.MapKey() in existing)
    && (forall key :: key in existing ==> existing[key] in origin[..n] && existing[key].binding.MapKey() == key)
  }

  lemma IndexedMatch(origin: VolumePlan, existing: map<(string, string, string), Entry>, req: VolumeBinding)
    requires DistinctKeys(origin) && Indexed(origin, |origin|, existing)
    ensures if req.MapKey() in existing then Match(origin, req) == Some(existing[req.MapKey()]) else Match(origin, req) == None
  {
    assert origin[..|origin|] == origin;
    var r := Match(origin, req);
    if r.Some? {
      var i :| 0 <= i < |origin| && origin[i] == r.value;
      assert origin[i].binding.MapKey() in existing;
    }
    if req.MapKey() in existing {
      var e := existing[req.MapKey()];
      assert e in origin;
      var i :| 0 <= i < |origin| && origin[i] == r.value;
      var j :| 0 <= j < |origin| && origin[j] == e;
      assert i == j;
    }
  }

  /** classifyAffinityRequests: the matched requests on the devices of their matches, and the others. */
  method ClassifyAffinity(requests: seq<VolumeBinding>, origin: VolumePlan) returns (affinity: VolumePlan, nonAffinity: seq<VolumeBinding>)
    requires DistinctKeys(origin)
    ensures affinity == Kept(requests, origin) && nonAffinity == Unmatched(requests, origin)
  {
    var existing: map<(string, string, string), Entry> := map[];
    for i := 0 to |origin|
      invariant Indexed(origin, i, existing)
    {
      assert origin[i] in origin[..i + 1];
      existing := existing[origin[i].binding.MapKey() := origin[i]];
    }
    affinity, nonAffinity := [], [];
    for i := 0 to |requests|
      invariant affinity == Kept(requests[..i], origin) && nonAffinity == Unmatched(requests[..i], origin)
    {
      var req := requests[i];
      assert requests[..i + 1][..i] == requests[..i];
      IndexedMatch(origin, existing, req);
      if req.MapKey() in existing {
        affinity := affinity + [Entry(req, existing[req.MapKey()].device, req.size)];
      } else {
        nonAffinity := nonAffinity + [req];
      }
    }
    assert requests[..|requests|] == requests;
  }

  // ---- Charging

  /** Draws the quota of one matched request, when it asks for any. */
  method DrawEntry(h: Host, e: Entry, diskPlan: seq<Disk>) returns (ok: bool, diskPlan': seq<Disk>)
    requires h.CacheAgrees() && e.binding.quota.NonNegative()
    modifies h`disks, h`diskByPath
    ensures h.CacheAgrees() && LayoutOf(h.disks) == old(LayoutOf(h.disks))
    ensures ok <==> !e.binding.RequireIOPS() || Qualified(h.Top(), old(QuotasOf(h.disks)), e.device, e.binding)
    ensures ok ==> QuotasOf(h.disks) == LessQuota(old(QuotasOf(h.disks)), h.Top().Disk(e.device), e.binding.quota)
    ensures ok ==> diskPlan' == Accumulate(h.Top(), diskPlan, e)
  {
    ghost var qs, l := QuotasOf(h.disks), h.Top();
    if !e.binding.RequireIOPS() {
      NoQuotaDrawn(qs, l.Disk(e.device), e.binding.quota);
      PlanSkips(l, diskPlan, e);
      return true, diskPlan;
    }
    var disk := h.GetDiskByPath(e.device);
    QualifiedByDisk(h.disks, disk, e.device, e.binding);
    QualifiedOnDisk(l, qs, e.device, e.binding);
    if !QuotaQualified(h.disks, disk, e.binding) {
      return false, diskPlan;
    }
    h.DecreaseIOPSQuota(disk.value, e.binding);
    ok := true;
    diskPlan' := h.PlanQuota(diskPlan, disk, e);
  }

  /** Charges one matched request on its device. */
  method ChargeEntry(h: Host, e: Entry, diskPlan: seq<Disk>) returns (ok: bool, diskPlan': seq<Disk>)
    requires h.Valid() && e.size >= 0 && e.binding.quota.NonNegative() && OnHost(h.Now(), e.device)
    modifies h`disks, h`diskByPath, h`unusedVolumes, h.usedVolumes
    ensures LayoutOf(h.disks) == old(LayoutOf(h.disks)) && h.usedVolumes == old(h.usedVolumes)
    ensures ok <==> Bears(h.Top(), old(h.Now()), e)
    ensures ok ==> h.Valid() && h.Now() == Debit(h.Top(), old(h.Now()), [e]) && diskPlan' == Accumulate(h.Top(), diskPlan, e)
  {
    ghost var p, l := h.Now(), h.Top();
    NamedIffOnHost(p, e.device);
    var at := GetVolumeByDevice(h, e.device);
    var volume := h.VolumeAt(at.value);
    InPool(h, at.value);
    BearsAt(l, p, e, volume);
    hide Good, Bears, Qualified, UniqueSlots, LessQuota, OnHost;
    if e.size > volume.size {
      return false, diskPlan;
    }
    h.SetSize(at.value, volume.size - e.size);
    ok, diskPlan' := DrawEntry(h, e, diskPlan);
    if ok {
      ChargedTo(l, p, e, at.value.Used?, at.value.index, h.Now());
    }
  }

  lemma InPool(h: Host, at: Place)
    requires h.IsPlace(at)
    ensures h.VolumeAt(at) in h.Now().used || h.VolumeAt(at) in h.Now().unused
  {
    if at.Used? {
      assert h.Now().used[at.index] == h.VolumeAt(at);
    }
  }

  /** Every device of these entries is on the host. */
  ghost predicate AllPlaced(p: Pool, es: seq<Entry>) {
    forall e :: e in es ==> OnHost(p, e.device)
  }

  lemma ChargesKeepDevices(l: Topology, p: Pool, es: seq<Entry>, device: string)
    ensures OnHost(Debit(l, p, es), device) <==> OnHost(p, device)
  {
    DebitListed(p.used, es, device);
    DebitListed(p.unused, es, device);
  }

  /** What was placed so far: plan holds the bindings of done, and the disk plan what they draw. */
  ghost predicate Recorded(l: Topology, plan0: VolumePlan, held: seq<Entry>, done: seq<Entry>, plan: VolumePlan, disks: seq<Disk>) {
    plan == plan0 + done && HoldsFor(l, disks, held + done)
  }

  lemma RecordedNext(l: Topology, plan0: VolumePlan, held: seq<Entry>, done: seq<Entry>, plan: VolumePlan, disks: seq<Disk>, e: Entry)
    requires Recorded(l, plan0, held, done, plan, disks) && UniqueSlots(l.slots) && e.binding.quota.NonNegative()
    ensures Recorded(l, plan0, held, done + [e], plan + [e], Accumulate(l, disks, e))
  {
    HoldsOne(l, disks, held + done, e);
    assert held + done + [e] == held + (done + [e]);
    assert plan0 + done + [e] == plan0 + (done + [e]);
  }

  /** The plan so far and one of the entries left have different destinations. */
  lemma NextUnrelated(plan0: VolumePlan, all: seq<Entry>, done: seq<Entry>, rest: seq<Entry>, k: nat, reqs: seq<VolumeBinding>)
    requires Unlike(reqs) && multiset(BindingsOf(plan0)) + multiset(BindingsOf(all)) <= multiset(reqs)
    requires multiset(done) + multiset(rest) == multiset(all) && k < |rest|
    ensures Unrelated(plan0 + done, [rest[k]])
  {
    BindingsPermutation(done + rest, all);
    BindingsConcat(done, rest);
    BindingsConcat(plan0, done);
    assert rest == rest[..k] + [rest[k]] + rest[k + 1..];
    BindingsConcat(rest[..k] + [rest[k]], rest[k + 1..]);
    BindingsConcat(rest[..k], [rest[k]]);
    BindingsUnrelated(plan0 + done, [rest[k]], reqs);
  }

  /** Charges entry k of those left. */
  method ChargeNext(h: Host, ghost p: Pool, all: seq<Entry>, ghost done: seq<Entry>, rest: seq<Entry>, k: nat, ghost plan0: VolumePlan,
      ghost held: seq<Entry>, plan: VolumePlan, diskPlan: seq<Disk>, ghost reqs: seq<VolumeBinding>)
      returns (ok: bool, plan': VolumePlan, diskPlan': seq<Disk>)
    requires h.Valid() && Good(h.Top(), p) && NonNegativeCharges(all) && AllPlaced(p, all)
    requires InProgress(h.Top(), p, all, done, rest, h.Now()) && k < |rest| && Recorded(h.Top(), plan0, held, done, plan, diskPlan)
    requires Unlike(reqs) && multiset(BindingsOf(plan0)) + multiset(BindingsOf(all)) <= multiset(reqs)
    modifies h`disks, h`diskByPath, h`unusedVolumes, h.usedVolumes
    ensures LayoutOf(h.disks) == old(LayoutOf(h.disks)) && h.usedVolumes == old(h.usedVolumes)
    ensures !ok ==> !Payable(h.Top(), p, all)
    ensures ok ==> h.Valid() && InProgress(h.Top(), p, all, done + [rest[k]], rest[..k] + rest[k + 1..], h.Now())
    ensures ok ==> Recorded(h.Top(), plan0, held, done + [rest[k]], plan', diskPlan')
  {
    ghost var l, q := h.Top(), h.Now();
    var e := rest[k];
    NextCharge(l, p, all, done, rest, q, k);
    NextUnrelated(plan0, all, done, rest, k, reqs);
    ChargesKeepDevices(l, p, done, e.device);
    RecordedNext(l, plan0, held, done, plan, diskPlan, e);
    hide Recorded, InProgress, Payable, Unrelated, Good, Unlike, UniqueSlots;
    plan' := plan;
    ok, diskPlan' := ChargeEntry(h, e, diskPlan);
    if ok {
      plan' := Merge(plan, [e]);
      assert plan' == plan + [e] by {
        assert plan == plan0 + done;
      }
    }
  }

  /** With nothing left, everything was charged: the host is what the entries in their own order leave. */
  lemma AllCharged(l: Topology, p: Pool, all: seq<Entry>, done: seq<Entry>, q: Pool, plan0: VolumePlan,
      held: seq<Entry>, plan: VolumePlan, disks: seq<Disk>)
    requires InProgress(l, p, all, done, [], q) && Recorded(l, plan0, held, done, plan, disks)
    ensures Payable(l, p, all) && q == Debit(l, p, all)
    ensures multiset(plan) == multiset(plan0 + all) && HoldsFor(l, disks, held + all)
  {
    assert multiset(done) == multiset(all);
    PayablePermutation(l, p, done, all);
    DebitPermutation(l, p, done, all);
    HoldsPermutation(l, disks, held, done, all);
  }

  /** Charges all matched requests of a class, in whatever order their map is ranged over. */
  method ChargeAll(h: Host, all: seq<Entry>, ghost plan0: VolumePlan, ghost held: seq<Entry>, plan: VolumePlan, diskPlan: seq<Disk>,
      ghost reqs: seq<VolumeBinding>)
      returns (ok: bool, plan': VolumePlan, diskPlan': seq<Disk>)
    requires h.Valid() && NonNegativeCharges(all) && AllPlaced(h.Now(), all) && plan == plan0 && HoldsFor(h.Top(), diskPlan, held)
    requires Unlike(reqs) && multiset(BindingsOf(plan0)) + multiset(BindingsOf(all)) <= multiset(reqs)
    modifies h`disks, h`diskByPath, h`unusedVolumes, h.usedVolumes
    ensures LayoutOf(h.disks) == old(LayoutOf(h.disks)) && h.usedVolumes == old(h.usedVolumes)
    ensures ok <==> Payable(h.Top(), old(h.Now()), all)
    ensures ok ==> h.Valid() && h.Now() == Debit(h.Top(), old(h.Now()), all)
    ensures ok ==> multiset(plan') == multiset(plan0 + all) && HoldsFor(h.Top(), diskPlan', held + all)
  {
    ghost var p, l := h.Now(), h.Top();
    var rest := all;
    ghost var done: seq<Entry> := [];
    plan', diskPlan' := plan, diskPlan;
    StartCharging(l, p, all, plan0, held, diskPlan);
    while rest != []
      invariant h.Valid() && LayoutOf(h.disks) == old(LayoutOf(h.disks)) && h.usedVolumes == old(h.usedVolumes)
      invariant InProgress(l, p, all, done, rest, h.Now()) && Recorded(l, plan0, held, done, plan', diskPlan')
      decreases |rest|
    {
      var k: nat :| k < |rest|;
      ok, plan', diskPlan' := ChargeNext(h, p, all, done, rest, k, plan0, held, plan', diskPlan', reqs);
      if !ok {
        return;
      }
      done := done + [rest[k]];
      rest := rest[..k] + rest[k + 1..];
    }
    AllCharged(l, p, all, done, h.Now(), plan0, held, plan', diskPlan');
    ok := true;
  }

  lemma StartCharging(l: Topology, p: Pool, all: seq<Entry>, plan0: VolumePlan, held: seq<Entry>, disks: seq<Disk>)
    requires Good(l, p) && HoldsFor(l, disks, held)
    ensures InProgress(l, p, all, [], all, p) && Recorded(l, plan0, held, [], plan0, disks)
  {
    DebitNil(l, p);
    assert plan0 + [] == plan0 && held + [] == held;
  }

  // ---- The monopoly group

  /** The bytes that the origin's monopoly bindings hold. */
  method SumMono(origin: VolumePlan) returns (total: int)
    ensures total == MonoHeld(origin)
  {
    total := 0;
    for i := 0 to |origin|
      invariant total == MonoHeld(origin[..i])
    {
      assert origin[..i + 1] == origin[..i] + [origin[i]];
      SumAppend(MonoSize(), origin[..i], origin[i]);
      if origin[i].binding.RequireScheduleMonopoly() {
        total := total + origin[i].size;
      }
    }
    assert origin[..|origin|] == origin;
  }

  /** getMonoAffinityPlan: the whole volume of any matched monopoly request for the whole group. */
  method GetMonoAffinityPlan(h: Host, mono: seq<VolumeBinding>, affinity: VolumePlan, origin: VolumePlan)
      returns (ok: bool, group: VolumePlan, diskPlan: seq<Disk>, device: string)
    requires h.Valid() && ValidAll(mono) && mono != [] && affinity != [] && AllPlaced(h.Now(), affinity)
    modifies h, h.usedVolumes
    ensures exists e :: e in affinity && e.device == device
    ensures LayoutOf(h.disks) == old(LayoutOf(h.disks)) && h.usedVolumes == old(h.usedVolumes)
    ensures ok <==> KeptGroup(h.Top(), h.share, old(h.Now()), mono, origin, device).Some?
    ensures ok <==> GroupFits(h.Top(), old(h.Now()), mono, origin, device)
    ensures ok ==> group == MonoGroup(h.share, mono, VolumeNamed(AllVolumes(old(h.Now())), device).value)
    ensures ok ==> group == KeptGroup(h.Top(), h.share, old(h.Now()), mono, origin, device).value
    ensures ok ==> h.Valid() && h.Now() == Debit(h.Top(), old(h.Now()), group) && HoldsFor(h.Top(), diskPlan, group)
  {
    var k: nat :| k < |affinity|;
    device := affinity[k].device;
    assert affinity[k] in affinity;
    ghost var l, p := h.Top(), h.Now();
    NamedIffOnHost(p, device);
    GroupKept(l, h.share, p, mono, origin, device);
    hide GroupFits;
    var total := h.TotalOf(mono);
    var held := SumMono(origin);
    if held < total.size {
      return false, [], [], device;
    }
    var at := GetVolumeByDevice(h, device);
    ghost var v := h.VolumeAt(at.value);
    ok, group, diskPlan := h.GetMonoPlan(mono, at.value);
    if ok {
      GroupHolds(l, h.share, mono, v);
    }
  }

  lemma GroupHolds(l: Topology, share: Share, mono: seq<VolumeBinding>, v: Volume)
    requires UniqueSlots(l.slots) && ValidAll(mono)
    ensures HoldsFor(l, MonoDisks(l, mono, v), MonoGroup(share, mono, v))
  {
    forall j, m | 0 <= j < |l.slots|
      ensures TotalQuota(MonoDisks(l, mono, v), l.slots[j].device, m) == QuotaOn(l, MonoGroup(share, mono, v), j, m)
    {
      MonoDisksTotal(l, share, mono, v, j, m);
    }
    forall device, m | NoSlot(l, device) ensures TotalQuota(MonoDisks(l, mono, v), device, m) == 0 {
      MonoDisksOff(l, mono, v, device, m);
    }
  }

  // ---- The whole reallocation

  /** Gives the old mount quota and the origin plan back. */
  method ReleaseAll(h: Host, origin: VolumePlan, originRequests: seq<VolumeBinding>) returns (ok: bool)
    requires h.Valid() && ValidRequests(originRequests) && Held(Given(origin, originRequests))
    modifies h`disks, h`diskByPath, h`unusedVolumes, h.usedVolumes
    ensures LayoutOf(h.disks) == old(LayoutOf(h.disks)) && h.usedVolumes == old(h.usedVolumes)
    ensures ok <==> Releasable(h.Top(), old(h.Now()), origin, originRequests)
    ensures ok ==> h.Valid() && h.Now() == Credit(h.Top(), old(h.Now()), Given(origin, originRequests))
  {
    ghost var p, l := h.Now(), h.Top();
    var before := ClassifyVolumeBindings(originRequests);
    ClassifyValid(originRequests);
    assert forall e :: e in origin ==> e in Given(origin, originRequests);
    ok := ReleaseMounts(h, before.mount);
    if !ok {
      return;
    }
    ghost var mounts := MountEntries(before.mount);
    CreditShape(p, mounts);
    forall device ensures OnHost(h.Now(), device) <==> OnHost(p, device) {
      SameHost(p, mounts, l, device);
    }
    ok := ReleasePlan(h, origin);
    CreditConcat(l, p, mounts, origin);
    CreditGood(l, p, Given(origin, originRequests));
  }

  /** Charges the mount requests, then the matched normal ones. */
  method ChargeFirst(h: Host, c: RequestClasses, origin: VolumePlan)
      returns (ok: bool, plan: VolumePlan, diskPlan: seq<Disk>, need: seq<VolumeBinding>)
    requires h.Valid() && ValidClasses(c) && Unlike(c.normal + c.mono + c.unlimited) && DistinctKeys(origin) && AllPlaced(h.Now(), origin)
    modifies h`disks, h`diskByPath, h`unusedVolumes, h.usedVolumes
    ensures LayoutOf(h.disks) == old(LayoutOf(h.disks)) && h.usedVolumes == old(h.usedVolumes)
    ensures var all := MountEntries(c.mount) + Kept(c.normal, origin);
      && (ok <==> Payable(h.Top(), old(h.Now()), all))
      && (ok ==> h.Valid() && h.Now() == Debit(h.Top(), old(h.Now()), all) && HoldsFor(h.Top(), diskPlan, all))
      && (ok ==> multiset(plan) == multiset(Kept(c.normal, origin)) && need == Unmatched(c.normal, origin))
  {
    ghost var p, l, mounts := h.Now(), h.Top(), MountEntries(c.mount);
    var kept;
    kept, need := ClassifyAffinity(c.normal, origin);
    ChargesReady(l, p, c, origin);
    ok, diskPlan := h.GetMountDiskPlan(c.mount);
    if !ok {
      return false, [], [], [];
    }
    forall e | e in kept ensures OnHost(h.Now(), e.device) {
      ChargesKeepDevices(l, p, mounts, e.device);
    }
    DebitConcat(l, p, mounts, kept);
    hide AllPlaced, Payable, NonNegativeCharges, Good, Unlike, HoldsFor, ValidClasses;
    assert AllPlaced(h.Now(), kept) by {
      PlacedAfter(l, p, mounts, kept);
    }
    ok, plan, diskPlan := ChargeAll(h, kept, [], mounts, [], diskPlan, c.normal + c.mono + c.unlimited);
    assert [] + kept == kept;
  }

  lemma PlacedAfter(l: Topology, p: Pool, es: seq<Entry>, more: seq<Entry>)
    requires AllPlaced(p, more)
    ensures AllPlaced(Debit(l, p, es), more)
  {
    forall e | e in more ensures OnHost(Debit(l, p, es), e.device) {
      ChargesKeepDevices(l, p, es, e.device);
    }
  }

  /** What charging the mounts and the matched normal requests relies on. */
  lemma ChargesReady(l: Topology, p: Pool, c: RequestClasses, origin: VolumePlan)
    requires Good(l, p) && UniqueSlots(l.slots) && ValidClasses(c) && AllPlaced(p, origin)
    ensures var mounts, kept := MountEntries(c.mount), Kept(c.normal, origin);
      && NonNegativeCharges(mounts) && NonNegativeCharges(kept) && AllPlaced(p, kept)
      && HoldsFor(l, DiskPlan(l, mounts), mounts)
      && (CheckedPass(l, p, mounts).ok <==> Payable(l, p, mounts))
      && (Payable(l, p, mounts + kept) <==> Payable(l, p, mounts) && Payable(l, Debit(l, p, mounts), kept))
      && multiset(BindingsOf([])) + multiset(BindingsOf(kept)) <= multiset(c.normal + c.mono + c.unlimited)
  {
    var mounts, kept := MountEntries(c.mount), Kept(c.normal, origin);
    MountEntriesValid(c.mount);
    KeptCharges(c.normal, origin);
    KeptPlaced(p, c.normal, origin);
    HoldsDiskPlan(l, mounts);
    PayableIff(l, p, mounts);
    PayableConcat(l, p, mounts, kept);
    KeptPartition(c.normal, origin);
    assert multiset(c.normal + c.mono + c.unlimited) == multiset(c.normal) + multiset(c.mono) + multiset(c.unlimited);
  }

  lemma KeptPlaced(p: Pool, reqs: seq<VolumeBinding>, origin: VolumePlan)
    requires AllPlaced(p, origin)
    ensures AllPlaced(p, Kept(reqs, origin))
  {
    KeptIn(reqs, origin);
    forall e | e in Kept(reqs, origin) ensures OnHost(p, e.device) {
      assert Match(origin, e.binding).value in origin;
    }
  }

  /** Charges the group of the monopoly requests when one of them is matched, and leaves them to be scheduled otherwise. */
  method ChargeGroup(h: Host, c: RequestClasses, origin: VolumePlan, plan: VolumePlan, diskPlan: seq<Disk>,
      need: seq<VolumeBinding>, ghost r: Pool)
      returns (ok: bool, plan': VolumePlan, diskPlan': seq<Disk>, need': seq<VolumeBinding>, ghost device: string)
    requires h.Valid() && ValidClasses(c) && Unlike(c.normal + c.mono + c.unlimited) && DistinctKeys(origin) && AllPlaced(h.Now(), origin)
    requires h.Now() == Debit(h.Top(), r, MountEntries(c.mount) + Kept(c.normal, origin))
    requires multiset(plan) == multiset(Kept(c.normal, origin)) && HoldsFor(h.Top(), diskPlan, MountEntries(c.mount) + Kept(c.normal, origin))
    modifies h, h.usedVolumes
    ensures LayoutOf(h.disks) == old(LayoutOf(h.disks)) && h.usedVolumes == old(h.usedVolumes)
    ensures Kept(c.mono, origin) != [] ==> exists e :: e in Kept(c.mono, origin) && e.device == device
    ensures var placed := Placed(h.Top(), h.share, old(h.Now()), c, origin, device);
      && (ok <==> placed.Some?)
      && (ok ==> h.Valid() && h.Now() == Debit(h.Top(), r, MountEntries(c.mount) + placed.value))
      && (ok ==> multiset(plan') == multiset(placed.value) && HoldsFor(h.Top(), diskPlan', MountEntries(c.mount) + placed.value))
    ensures ok ==> need' == need + if Kept(c.mono, origin) == [] then Unmatched(c.mono, origin) else []
  {
    hide Unlike, DistinctKeys, HoldsFor, AllPlaced, Good, UniqueSlots, Debit, Unrelated, Unmatched, GroupFits, Kept;
    ghost var l, d, mounts, kept := h.Top(), h.Now(), MountEntries(c.mount), Kept(c.normal, origin);
    var affinity, nonAffinity := ClassifyAffinity(c.mono, origin);
    if affinity == [] {
      return true, plan, diskPlan, need + nonAffinity, "";
    }
    KeptPlaced(d, c.mono, origin);
    KeptNone(c.mono, origin);
    var group, monoDisks;
    var at;
    ok, group, monoDisks, at := GetMonoAffinityPlan(h, c.mono, affinity, origin);
    device := at;
    plan', diskPlan', need' := [], [], need;
    if ok {
      plan', diskPlan' := AddGroup(l, h.share, c, origin, plan, diskPlan, group, monoDisks, mounts + kept);
      ChargedTogether(l, r, mounts, kept, group);
      assert need + [] == need;
    }
  }

  lemma ChargedTogether(l: Topology, r: Pool, mounts: seq<Entry>, kept: seq<Entry>, group: seq<Entry>)
    ensures Debit(l, Debit(l, r, mounts + kept), group) == Debit(l, r, mounts + (kept + group))
    ensures mounts + kept + group == mounts + (kept + group)
  {
    DebitConcat(l, r, mounts + kept, group);
    assert mounts + kept + group == mounts + (kept + group);
  }

  /** Adds a group and its disks to the plan so far. */
  method AddGroup(ghost l: Topology, ghost share: Share, c: RequestClasses, origin: VolumePlan, plan: VolumePlan, diskPlan: seq<Disk>,
      group: VolumePlan, monoDisks: seq<Disk>, ghost held: seq<Entry>)
      returns (plan': VolumePlan, diskPlan': seq<Disk>)
    requires Unlike(c.normal + c.mono + c.unlimited) && multiset(plan) == multiset(Kept(c.normal, origin))
    requires HoldsFor(l, diskPlan, held) && HoldsFor(l, monoDisks, group)
    requires exists v :: group == MonoGroup(share, c.mono, v)
    ensures multiset(plan') == multiset(Kept(c.normal, origin) + group) && HoldsFor(l, diskPlan', held + group)
  {
    hide Unlike, HoldsFor, Kept, MonoGroup;
    GroupUnrelated(share, c, origin, plan, group);
    HoldsAdded(l, diskPlan, held, monoDisks, group);
    plan' := Merge(plan, group);
    diskPlan' := Disks.Add(diskPlan, monoDisks);
  }

  lemma GroupUnrelated(share: Share, c: RequestClasses, origin: VolumePlan, plan: VolumePlan, group: VolumePlan)
    requires Unlike(c.normal + c.mono + c.unlimited) && multiset(plan) == multiset(Kept(c.normal, origin))
    requires exists v :: group == MonoGroup(share, c.mono, v)
    ensures Unrelated(plan, group)
  {
    KeptPartition(c.normal, origin);
    BindingsPermutation(plan, Kept(c.normal, origin));
    assert BindingsOf(group) == c.mono;
    assert multiset(c.normal + c.mono + c.unlimited) == multiset(c.normal) + multiset(c.mono) + multiset(c.unlimited);
    BindingsUnrelated(plan, group, c.normal + c.mono + c.unlimited);
  }

  /** The answer is the outcome: the same error, or the same placements in some order and a disk plan that holds what they draw. */
  ghost predicate Answers(l: Topology, mounts: seq<Entry>, outcome: Result<Deployment>, r: Result<Deployment>) {
    match outcome
    case Err(e) => r == Err(e)
    case Ok(d) => r.Ok? && multiset(r.value.volumes) == multiset(d.volumes) && HoldsFor(l, r.value.disks, mounts + d.volumes)
  }

  /** Matched unlimited requests can always be pinned. */
  lemma PinningReady(l: Topology, p: Pool, unlimited: seq<VolumeBinding>, origin: VolumePlan)
    requires Good(l, p) && AllPlaced(p, origin) && forall b :: b in unlimited ==> b.size == 0 && b.quota.IsZero()
    ensures var kept := Kept(unlimited, origin);
      NonNegativeCharges(kept) && AllPlaced(p, kept) && Payable(l, p, kept) && Debit(l, p, kept) == p
  {
    KeptIn(unlimited, origin);
    KeptPlaced(p, unlimited, origin);
    FreeKept(l, p, unlimited, origin);
  }

  /** What is placed and what is left to place are different requests. */
  ghost predicate Apportioned(c: RequestClasses, origin: VolumePlan, placed: VolumePlan) {
    multiset(BindingsOf(placed)) + multiset(BindingsOf(Kept(c.unlimited, origin))) + multiset(Anew(c, origin))
      <= multiset(c.normal + c.mono + c.unlimited)
  }

  lemma PlacedApportioned(l: Topology, share: Share, d: Pool, c: RequestClasses, origin: VolumePlan, device: string)
    ensures var placed := Placed(l, share, d, c, origin, device); placed.Some? ==> Apportioned(c, origin, placed.value)
  {
    KeptPartition(c.normal, origin);
    KeptPartition(c.mono, origin);
    KeptPartition(c.unlimited, origin);
    var placed := Placed(l, share, d, c, origin, device);
    assert multiset(c.normal + c.mono + c.unlimited) == multiset(c.normal) + multiset(c.mono) + multiset(c.unlimited);
    if placed.Some? && Kept(c.mono, origin) != [] {
      var group := KeptGroup(l, share, d, c.mono, origin, device).value;
      assert BindingsOf(group) == c.mono;
      BindingsConcat(Kept(c.normal, origin), group);
    }
  }

  /** Schedules what has no match on top of what is placed. */
  method ScheduleRest(h: Host, plan: VolumePlan, diskPlan: seq<Disk>, need: seq<VolumeBinding>,
      ghost held: seq<Entry>, ghost all: seq<VolumeBinding>)
      returns (r: Result<Deployment>)
    requires h.Valid() && h.Within64() && |h.unusedVolumes| < MAX_INT && h.maxDeployCount == 1
    requires ValidRequests(need) && Classify(need).mount == [] && NeedSchedule(need) && HoldsFor(h.Top(), diskPlan, held)
    requires Unlike(all) && multiset(BindingsOf(plan)) + multiset(need) <= multiset(all)
    modifies h`usedVolumes, h`unusedVolumes
    ensures h.disks == old(h.disks)
    ensures var ds := Schedule(h.Top(), h.share, old(h.Now()), need, 1, Planning);
      if ds == [] then r == Err(ErrInsufficientResource)
      else r.Ok? && r.value.volumes == plan + ds[0].volumes && HoldsFor(h.Top(), r.value.disks, held + ds[0].volumes)
  {
    ghost var p, l := h.Now(), h.Top();
    var plans := h.GetVolumePlans(need);
    if |plans| == 0 {
      return Err(ErrInsufficientResource);
    }
    ScheduledFits(l, h.share, p, need);
    ScheduledBindings(l, h.share, p, need);
    BindingsUnrelated(plan, plans[0].volumes, all);
    HoldsAdded(l, diskPlan, held, plans[0].disks, plans[0].volumes);
    var volumes := Merge(plan, plans[0].volumes);
    var diskPlan' := Disks.Add(diskPlan, plans[0].disks);
    r := Ok(Deployment(volumes, diskPlan'));
  }

  /** Pins the matched unlimited requests; this always succeeds and changes nothing on the host. */
  method PinMatched(h: Host, c: RequestClasses, origin: VolumePlan, plan: VolumePlan, diskPlan: seq<Disk>,
      ghost placed: VolumePlan, ghost held: seq<Entry>)
      returns (plan': VolumePlan, diskPlan': seq<Disk>, rest: seq<VolumeBinding>)
    requires h.Valid() && h.Within64() && ValidClasses(c) && Unlike(c.normal + c.mono + c.unlimited)
    requires DistinctKeys(origin) && AllPlaced(h.Now(), origin)
    requires multiset(plan) == multiset(placed) && HoldsFor(h.Top(), diskPlan, held) && Apportioned(c, origin, placed)
    modifies h`disks, h`diskByPath, h`unusedVolumes, h.usedVolumes
    ensures h.Within64() && h.Top() == old(h.Top())
    ensures h.Valid() && h.Now() == old(h.Now()) && LayoutOf(h.disks) == old(LayoutOf(h.disks)) && h.usedVolumes == old(h.usedVolumes)
    ensures multiset(plan') == multiset(placed + Kept(c.unlimited, origin)) && HoldsFor(h.Top(), diskPlan', held + Kept(c.unlimited, origin))
    ensures rest == Unmatched(c.unlimited, origin)
  {
    ghost var p := h.Now();
    PinningReady(h.Top(), h.Now(), c.unlimited, origin);
    BindingsPermutation(plan, placed);
    var kept;
    kept, rest := ClassifyAffinity(c.unlimited, origin);
    var ok;
    ok, plan', diskPlan' := ChargeAll(h, kept, plan, held, plan, diskPlan, c.normal + c.mono + c.unlimited);
    assert ok;
    SameQuotas(p, h);
  }

  /** Pins the matched unlimited requests and schedules what has no match. */
  method FinishPlan(h: Host, requests: seq<VolumeBinding>, c: RequestClasses, origin: VolumePlan, plan: VolumePlan, diskPlan: seq<Disk>,
      need: seq<VolumeBinding>, ghost placed: VolumePlan, ghost disks: seq<Disk>)
      returns (r: Result<Deployment>)
    requires h.Valid() && h.Within64() && |h.unusedVolumes| < MAX_INT && h.maxDeployCount == 1
    requires ValidRequests(requests) && c == Classify(requests) && DistinctKeys(origin) && AllPlaced(h.Now(), origin)
    requires multiset(plan) == multiset(placed) && HoldsFor(h.Top(), diskPlan, MountEntries(c.mount) + placed) && Apportioned(c, origin, placed)
    requires need == Unmatched(c.normal, origin) + if Kept(c.mono, origin) == [] then Unmatched(c.mono, origin) else []
    modifies h, h.usedVolumes
    ensures LayoutOf(h.disks) == old(LayoutOf(h.disks))
    ensures Answers(h.Top(), MountEntries(c.mount), Finish(h.Top(), h.share, old(h.Now()), c, origin, placed, disks), r)
  {
    ghost var l, p, mounts, kept := h.Top(), h.Now(), MountEntries(c.mount), Kept(c.unlimited, origin);
    ClassifyValid(requests);
    ClassesUnlike(requests);
    AnewIs(c, origin, need);
    hide *;
    var plan', diskPlan', rest := PinMatched(h, c, origin, plan, diskPlan, placed, mounts + placed);
    Reassociate(mounts, placed, kept);
    RestReady(requests, origin, placed, plan');
    r := ScheduleMatched(h, c, origin, plan', diskPlan', need + rest, placed, disks);
  }

  lemma Reassociate(a: seq<Entry>, b: seq<Entry>, c: seq<Entry>)
    ensures a + b + c == a + (b + c)
  {
  }

  lemma AnewIs(c: RequestClasses, origin: VolumePlan, need: seq<VolumeBinding>)
    requires need == Unmatched(c.normal, origin) + if Kept(c.mono, origin) == [] then Unmatched(c.mono, origin) else []
    ensures need + Unmatched(c.unlimited, origin) == Anew(c, origin)
  {
  }

  lemma PinnedAnswers(l: Topology, share: Share, p: Pool, c: RequestClasses, origin: VolumePlan, placed: VolumePlan, disks: seq<Disk>,
      plan: VolumePlan, diskPlan: seq<Disk>)
    requires multiset(plan) == multiset(placed + Kept(c.unlimited, origin))
    requires HoldsFor(l, diskPlan, MountEntries(c.mount) + (placed + Kept(c.unlimited, origin)))
    ensures Anew(c, origin) == [] ==>
      Answers(l, MountEntries(c.mount), Finish(l, share, p, c, origin, placed, disks), Ok(Deployment(plan, diskPlan)))
  {
  }

  /** What is left to schedule are valid requests, other than those placed. */
  lemma RestReady(requests: seq<VolumeBinding>, origin: VolumePlan, placed: VolumePlan, plan: VolumePlan)
    requires ValidRequests(requests) && Apportioned(Classify(requests), origin, placed)
    requires multiset(plan) == multiset(placed + Kept(Classify(requests).unlimited, origin))
    ensures var c := Classify(requests); var need := Anew(c, origin);
      && ValidRequests(need) && Classify(need).mount == [] && (need != [] ==> NeedSchedule(need))
      && multiset(BindingsOf(plan)) + multiset(need) <= multiset(c.normal + c.mono + c.unlimited)
  {
    AnewValid(requests, origin);
    BindingsPermutation(plan, placed + Kept(Classify(requests).unlimited, origin));
    BindingsConcat(placed, Kept(Classify(requests).unlimited, origin));
  }

  /** Schedules what has no match, if anything, and answers. */
  method ScheduleMatched(h: Host, c: RequestClasses, origin: VolumePlan, plan: VolumePlan, diskPlan: seq<Disk>, need: seq<VolumeBinding>,
      ghost placed: VolumePlan, ghost disks: seq<Disk>)
      returns (r: Result<Deployment>)
    requires h.Valid() && h.Within64() && |h.unusedVolumes| < MAX_INT && h.maxDeployCount == 1
    requires need == Anew(c, origin) && ValidRequests(need) && Classify(need).mount == [] && (need != [] ==> NeedSchedule(need))
    requires multiset(plan) == multiset(placed + Kept(c.unlimited, origin))
    requires HoldsFor(h.Top(), diskPlan, MountEntries(c.mount) + (placed + Kept(c.unlimited, origin)))
    requires Unlike(c.normal + c.mono + c.unlimited)
    requires multiset(BindingsOf(plan)) + multiset(need) <= multiset(c.normal + c.mono + c.unlimited)
    modifies h`usedVolumes, h`unusedVolumes
    ensures h.disks == old(h.disks)
    ensures Answers(h.Top(), MountEntries(c.mount), Finish(h.Top(), h.share, old(h.Now()), c, origin, placed, disks), r)
  {
    ghost var l, p := h.Top(), h.Now();
    if need == [] {
      PinnedAnswers(l, h.share, p, c, origin, placed, disks, plan, diskPlan);
      hide *;
      return Ok(Deployment(plan, diskPlan));
    }
    r := ScheduleRest(h, plan, diskPlan, need, MountEntries(c.mount) + (placed + Kept(c.unlimited, origin)), c.normal + c.mono + c.unlimited);
    hide *;
    ScheduledAnswers(l, h.share, p, c, origin, placed, disks, plan, r);
  }

  lemma ScheduledAnswers(l: Topology, share: Share, p: Pool, c: RequestClasses, origin: VolumePlan, placed: VolumePlan, disks: seq<Disk>,
      plan: VolumePlan, r: Result<Deployment>)
    requires Anew(c, origin) != [] && multiset(plan) == multiset(placed + Kept(c.unlimited, origin))
    requires var ds := Schedule(l, share, p, Anew(c, origin), 1, Planning);
      var held := MountEntries(c.mount) + (placed + Kept(c.unlimited, origin));
      if ds == [] then r == Err(ErrInsufficientResource)
      else r.Ok? && r.value.volumes == plan + ds[0].volumes && HoldsFor(l, r.value.disks, held + ds[0].volumes)
    ensures Answers(l, MountEntries(c.mount), Finish(l, share, p, c, origin, placed, disks), r)
  {
    var ds := Schedule(l, share, p, Anew(c, origin), 1, Planning);
    var kept, mounts := Kept(c.unlimited, origin), MountEntries(c.mount);
    if ds != [] {
      assert mounts + (placed + kept) + ds[0].volumes == mounts + (placed + kept + ds[0].volumes);
    }
  }

  lemma SameQuotas(p: Pool, h: Host)
    requires h.Now() == p && forall j :: 0 <= j < |p.quotas| ==> InRange(p.quotas[j])
    ensures forall j :: 0 <= j < |h.disks| ==> InRange(h.disks[j].quota)
  {
    forall j | 0 <= j < |h.disks| ensures InRange(h.disks[j].quota) {
      assert p.quotas[j] == h.disks[j].quota;
    }
  }

  /** Charges leave 64-bit quotas 64-bit. */
  lemma StillInRange(l: Topology, r: Pool, es: seq<Entry>)
    requires Good(l, Debit(l, r, es)) && (forall j :: 0 <= j < |r.quotas| ==> InRange(r.quotas[j]))
    requires forall e :: e in es ==> e.binding.quota.NonNegative()
    ensures var d := Debit(l, r, es); forall j :: 0 <= j < |d.quotas| ==> InRange(d.quotas[j])
  {
    var d := Debit(l, r, es);
    forall j | 0 <= j < |d.quotas| ensures InRange(d.quotas[j]) {
      RangeByMeter(r.quotas[j]);
      forall m: Meter ensures 0 <= d.quotas[j].Get(m) <= MAX_INT {
        forall e | e in es ensures MeterAt(l, j, m)(e) >= 0 {
          MeterZero(e.binding.quota, m);
        }
        SumNonNegative(MeterAt(l, j, m), es);
        MeterZero(d.quotas[j], m);
      }
      RangeByMeter(d.quotas[j]);
    }
  }

  lemma PlacedQuotas(l: Topology, share: Share, d: Pool, c: RequestClasses, origin: VolumePlan, device: string)
    requires ValidClasses(c)
    ensures var placed := Placed(l, share, d, c, origin, device);
      placed.Some? ==> forall e :: e in MountEntries(c.mount) + placed.value ==> e.binding.quota.NonNegative()
  {
    MountEntriesValid(c.mount);
    KeptCharges(c.normal, origin);
    if Kept(c.mono, origin) != [] && KeptGroup(l, share, d, c.mono, origin, device).Some? {
      var group := KeptGroup(l, share, d, c.mono, origin, device).value;
      forall e | e in group ensures e.binding.quota.NonNegative() {
        var k :| 0 <= k < |group| && group[k] == e;
        assert c.mono[k] in c.mono;
      }
    }
  }

  /** What finishing relies on once the group is charged. */
  lemma GroupReady(l: Topology, share: Share, p: Pool, d: Pool, c: RequestClasses, origin: VolumePlan, device: string)
    requires ValidClasses(c) && AllPlaced(p, origin) && Placed(l, share, d, c, origin, device).Some?
    requires forall j :: 0 <= j < |p.quotas| ==> InRange(p.quotas[j])
    ensures var placed := Placed(l, share, d, c, origin, device).value; var q := Debit(l, p, MountEntries(c.mount) + placed);
      && AllPlaced(q, origin) && Apportioned(c, origin, placed)
      && (Good(l, q) ==> forall j :: 0 <= j < |q.quotas| ==> InRange(q.quotas[j]))
  {
    var placed := Placed(l, share, d, c, origin, device).value;
    PlacedAfter(l, p, MountEntries(c.mount) + placed, origin);
    PlacedQuotas(l, share, d, c, origin, device);
    if Good(l, Debit(l, p, MountEntries(c.mount) + placed)) {
      StillInRange(l, p, MountEntries(c.mount) + placed);
    }
    PlacedApportioned(l, share, d, c, origin, device);
  }

  /** A host made for one plan, and what is given back to it stays within 64 bits. */
  ghost predicate ForRealloc(h: Host, given: seq<Entry>)
    reads h, h.usedVolumes
  {
    && h.Valid() && h.maxDeployCount == 1 && |h.unusedVolumes| < MAX_INT
    && forall j :: 0 <= j < |h.disks| ==> InRange(Credit(h.Top(), h.Now(), given).quotas[j])
  }

  /** A matched monopoly entry, when there is one. */
  ghost function SomePick(requests: seq<VolumeBinding>, origin: VolumePlan): (device: string)
    ensures MayPick(requests, origin, device)
  {
    var kept := Kept(Classify(requests).mono, origin);
    if kept == [] then "" else
      assert kept[0] in kept;
      kept[0].device
  }

  /** Charges what keeps its device and schedules the rest, on the host without the origin. */
  method RechargeHost(h: Host, requests: seq<VolumeBinding>, origin: VolumePlan) returns (r: Result<Deployment>, ghost device: string)
    requires h.Valid() && h.Within64() && h.maxDeployCount == 1 && |h.unusedVolumes| < MAX_INT
    requires ValidRequests(requests) && DistinctKeys(origin) && AllPlaced(h.Now(), origin)
    modifies h, h.usedVolumes
    ensures LayoutOf(h.disks) == old(LayoutOf(h.disks))
    ensures MayPick(requests, origin, device)
    ensures var c := Classify(requests);
      Answers(h.Top(), MountEntries(c.mount), Recharge(h.Top(), h.share, old(h.Now()), c, origin, device), r)
  {
    var c := ClassifyVolumeBindings(requests);
    ghost var l, p, mounts := h.Top(), h.Now(), MountEntries(c.mount);
    ClassifyValid(requests);
    ClassesUnlike(requests);
    device := SomePick(requests, origin);
    var ok, plan, diskPlan, need := ChargeFirst(h, c, origin);
    if !ok {
      return Err(ErrInsufficientResource), device;
    }
    PlacedAfter(l, p, mounts + Kept(c.normal, origin), origin);
    r, device := RechargeRest(h, requests, c, origin, plan, diskPlan, need, p);
  }

  /** Charges the monopoly group and finishes, once mounts and matched normal requests are charged on a host that was p. */
  method RechargeRest(h: Host, requests: seq<VolumeBinding>, c: RequestClasses, origin: VolumePlan, plan: VolumePlan, diskPlan: seq<Disk>,
      need: seq<VolumeBinding>, ghost p: Pool)
      returns (r: Result<Deployment>, ghost device: string)
    requires h.Valid() && h.maxDeployCount == 1 && |h.unusedVolumes| < MAX_INT && (forall j :: 0 <= j < |p.quotas| ==> InRange(p.quotas[j]))
    requires ValidRequests(requests) && c == Classify(requests) && ValidClasses(c) && Unlike(c.normal + c.mono + c.unlimited)
    requires DistinctKeys(origin) && AllPlaced(p, origin) && AllPlaced(h.Now(), origin) && Good(h.Top(), p)
    requires var all := MountEntries(c.mount) + Kept(c.normal, origin);
      Payable(h.Top(), p, all) && h.Now() == Debit(h.Top(), p, all) && HoldsFor(h.Top(), diskPlan, all)
    requires multiset(plan) == multiset(Kept(c.normal, origin)) && need == Unmatched(c.normal, origin)
    modifies h, h.usedVolumes
    ensures LayoutOf(h.disks) == old(LayoutOf(h.disks))
    ensures MayPick(requests, origin, device)
    ensures Answers(h.Top(), MountEntries(c.mount), Recharge(h.Top(), h.share, p, c, origin, device), r)
  {
    hide Payable, Recharge, Placed, Good, Unlike, HoldsFor, AllPlaced, DistinctKeys, ValidClasses, Finish, Apportioned, KeptGroup;
    ghost var l, mounts, d := h.Top(), MountEntries(c.mount), h.Now();
    var ok, plan', diskPlan', need';
    ok, plan', diskPlan', need', device := ChargeGroup(h, c, origin, plan, diskPlan, need, p);
    RechargeIs(l, h.share, p, c, origin, device);
    if !ok {
      return Err(ErrInsufficientResource), device;
    }
    ghost var placed := Placed(l, h.share, d, c, origin, device).value;
    GroupReady(l, h.share, p, d, c, origin, device);
    SameQuotas(h.Now(), h);
    r := FinishPlan(h, requests, c, origin, plan', diskPlan', need', placed, Added(DiskPlan(l, mounts), DiskPlan(l, placed)));
  }

  /** What recharging comes to once mounts and matched normal requests are paid for. */
  lemma RechargeIs(l: Topology, share: Share, r: Pool, c: RequestClasses, origin: VolumePlan, device: string)
    requires Payable(l, r, MountEntries(c.mount) + Kept(c.normal, origin))
    ensures var mounts := MountEntries(c.mount); var placed := Placed(l, share, Debit(l, r, mounts + Kept(c.normal, origin)), c, origin, device);
      Recharge(l, share, r, c, origin, device) == if placed.None? then Err(ErrInsufficientResource)
        else Finish(l, share, Debit(l, r, mounts + placed.value), c, origin, placed.value, Added(DiskPlan(l, mounts), DiskPlan(l, placed.value)))
  {
  }

  /** host.getAffinityPlan; device is that of the matched monopoly entry it comes to first, when there is one. */
  method GetAffinityPlan(h: Host, requests: seq<VolumeBinding>, origin: VolumePlan, originRequests: seq<VolumeBinding>)
      returns (r: Result<Deployment>, ghost device: string)
    requires ForRealloc(h, Given(origin, originRequests))
    requires ValidRequests(requests) && ValidRequests(originRequests) && DistinctKeys(origin) && Held(Given(origin, originRequests))
    modifies h, h.usedVolumes
    ensures LayoutOf(h.disks) == old(LayoutOf(h.disks))
    ensures MayPick(requests, origin, device)
    ensures Answers(h.Top(), MountEntries(Classify(requests).mount),
      Reallocate(h.Top(), h.share, old(h.Now()), requests, origin, originRequests, device), r)
    ensures NeedSchedule(requests) ==>
      (r.Ok? <==> Serviceable(h.Top(), h.share, old(h.Now()), requests, origin, originRequests, device))
  {
    r, device := AffinityPlan(h, requests, origin, originRequests);
    if NeedSchedule(requests) {
      ReallocatesIff(h.Top(), h.share, old(h.Now()), requests, origin, originRequests, device);
    }
    hide Reallocate, Serviceable, NeedSchedule;
  }

  /** Releases the origin, and charges and schedules the new requests. */
  method AffinityPlan(h: Host, requests: seq<VolumeBinding>, origin: VolumePlan, originRequests: seq<VolumeBinding>)
      returns (r: Result<Deployment>, ghost device: string)
    requires ForRealloc(h, Given(origin, originRequests))
    requires ValidRequests(requests) && ValidRequests(originRequests) && DistinctKeys(origin) && Held(Given(origin, originRequests))
    modifies h, h.usedVolumes
    ensures LayoutOf(h.disks) == old(LayoutOf(h.disks))
    ensures MayPick(requests, origin, device)
    ensures Answers(h.Top(), MountEntries(Classify(requests).mount),
      Reallocate(h.Top(), h.share, old(h.Now()), requests, origin, originRequests, device), r)
  {
    device := SomePick(requests, origin);
    if !NeedSchedule(requests) {
      NothingHeld(h.Top(), requests);
      return Ok(Deployment([], [])), device;
    }
    ghost var p := h.Now();
    var ok := ReleaseAll(h, origin, originRequests);
    if !ok {
      return Err(ErrInvalidVolume), device;
    }
    ReleasedReady(h.Top(), p, origin, originRequests);
    SameQuotas(h.Now(), h);
    r, device := RechargeHost(h, requests, origin);
  }

  /** Without a request for volumes or quota there is nothing to hold. */
  lemma NothingHeld(l: Topology, requests: seq<VolumeBinding>)
    requires ValidRequests(requests) && !NeedSchedule(requests)
    ensures HoldsFor(l, [], MountEntries(Classify(requests).mount) + [])
  {
    var mount := Classify(requests).mount;
    ClassifyValid(requests);
    MountEntriesFree(l, mount);
    assert MountEntries(mount) + [] == MountEntries(mount);
    forall j, m | 0 <= j < |l.slots| ensures TotalQuota([], l.slots[j].device, m) == QuotaOn(l, MountEntries(mount), j, m) {
      FreeEntries(l, MountEntries(mount), j, m);
    }
  }

  /** After a release every device of the origin is on the host. */
  lemma ReleasedReady(l: Topology, p: Pool, origin: VolumePlan, originRequests: seq<VolumeBinding>)
    requires Releasable(l, p, origin, originRequests)
    ensures AllPlaced(Credit(l, p, Given(origin, originRequests)), origin)
  {
    forall e | e in origin ensures OnHost(Credit(l, p, Given(origin, originRequests)), e.device) {
      SameHost(p, Given(origin, originRequests), l, e.device);
    }
  }
}
