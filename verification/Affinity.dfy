/** Reallocation as a function: release the origin plan, charge what keeps its device, reschedule the rest. */
module Affinity {
  import opened Quantity
  import opened Options
  import opened Bindings
  import opened Disks
  import opened Volumes
  import opened Sums
  import opened Charges
  import opened Passes
  import opened Monopoly
  import opened Planner
  import opened PlanContents

  // ---- Releasing

  function CreditVolumes(vs: seq<Volume>, es: seq<Entry>): (r: seq<Volume>)
    ensures |r| == |vs|
    ensures forall i :: 0 <= i < |vs| ==> r[i] == Volume(vs[i].device, vs[i].size + BytesOn(es, vs[i].device))
  {
    seq(|vs|, i requires 0 <= i < |vs| => Volume(vs[i].device, vs[i].size + BytesOn(es, vs[i].device)))
  }

  function CreditQuota(l: Topology, q: Quota, es: seq<Entry>, j: nat): (r: Quota)
    ensures forall m: Meter :: r.Get(m) == q.Get(m) + QuotaOn(l, es, j, m)
  {
    Quota(q.readIOPS + QuotaOn(l, es, j, ReadIOPS), q.writeIOPS + QuotaOn(l, es, j, WriteIOPS),
          q.readBPS + QuotaOn(l, es, j, ReadBPS), q.writeBPS + QuotaOn(l, es, j, WriteBPS))
  }

  function CreditQuotas(l: Topology, qs: seq<Quota>, es: seq<Entry>): (r: seq<Quota>)
    ensures |r| == |qs|
    ensures forall j :: 0 <= j < |qs| ==> r[j] == CreditQuota(l, qs[j], es, j)
  {
    seq(|qs|, j requires 0 <= j < |qs| => CreditQuota(l, qs[j], es, j))
  }

  /** The host with a list of charges given back. */
  function Credit(l: Topology, p: Pool, es: seq<Entry>): Pool {
    Pool(CreditVolumes(p.used, es), CreditVolumes(p.unused, es), CreditQuotas(l, p.quotas, es))
  }

  lemma CreditNil(l: Topology, p: Pool)
    ensures Credit(l, p, []) == p
  {
    assert CreditVolumes(p.used, []) == p.used && CreditVolumes(p.unused, []) == p.unused;
    forall j | 0 <= j < |p.quotas| ensures CreditQuotas(l, p.quotas, [])[j] == p.quotas[j] {
      EqualByMeter(CreditQuotas(l, p.quotas, [])[j], p.quotas[j]);
    }
    assert CreditQuotas(l, p.quotas, []) == p.quotas;
  }

  lemma CreditVolumesConcat(vs: seq<Volume>, a: seq<Entry>, b: seq<Entry>)
    ensures CreditVolumes(vs, a + b) == CreditVolumes(CreditVolumes(vs, a), b)
  {
    var r, s := CreditVolumes(vs, a + b), CreditVolumes(CreditVolumes(vs, a), b);
    forall i | 0 <= i < |vs| ensures r[i] == s[i] {
      BytesConcat(a, b, vs[i].device);
    }
  }

  lemma CreditConcat(l: Topology, p: Pool, a: seq<Entry>, b: seq<Entry>)
    ensures Credit(l, p, a + b) == Credit(l, Credit(l, p, a), b)
  {
    CreditVolumesConcat(p.used, a, b);
    CreditVolumesConcat(p.unused, a, b);
    var r, s := Credit(l, p, a + b).quotas, Credit(l, Credit(l, p, a), b).quotas;
    forall j | 0 <= j < |r| ensures r[j] == s[j] {
      forall m: Meter ensures r[j].Get(m) == s[j].Get(m) {
        QuotaConcat(l, a, b, j, m);
      }
      EqualByMeter(r[j], s[j]);
    }
  }

  lemma CreditPermutation(l: Topology, p: Pool, a: seq<Entry>, b: seq<Entry>)
    requires multiset(a) == multiset(b)
    ensures Credit(l, p, a) == Credit(l, p, b)
  {
    CreditVolumesPermutation(p.used, a, b);
    CreditVolumesPermutation(p.unused, a, b);
    var r, s := CreditQuotas(l, p.quotas, a), CreditQuotas(l, p.quotas, b);
    forall j | 0 <= j < |r| ensures r[j] == s[j] {
      forall m: Meter ensures r[j].Get(m) == s[j].Get(m) {
        SumPermutation(MeterAt(l, j, m), a, b);
      }
      EqualByMeter(r[j], s[j]);
    }
  }

  lemma CreditVolumesPermutation(vs: seq<Volume>, a: seq<Entry>, b: seq<Entry>)
    requires multiset(a) == multiset(b)
    ensures CreditVolumes(vs, a) == CreditVolumes(vs, b)
  {
    var r, s := CreditVolumes(vs, a), CreditVolumes(vs, b);
    forall i | 0 <= i < |vs| ensures r[i] == s[i] {
      SumPermutation(BytesAt(vs[i].device), a, b);
    }
  }

  /** Charges that hold nothing negative in total. */
  ghost predicate Held(es: seq<Entry>) {
    && (forall e :: e in es ==> e.binding.quota.NonNegative())
    && (forall d :: BytesOn(es, d) >= 0)
  }

  lemma HeldQuota(l: Topology, es: seq<Entry>, j: nat, m: Meter)
    requires Held(es)
    ensures QuotaOn(l, es, j, m) >= 0
  {
    forall e | e in es ensures MeterAt(l, j, m)(e) >= 0 {
      MeterZero(e.binding.quota, m);
    }
    SumNonNegative(MeterAt(l, j, m), es);
  }

  /** Releasing keeps a host good. */
  lemma CreditGood(l: Topology, p: Pool, es: seq<Entry>)
    requires Good(l, p) && Held(es)
    ensures Good(l, Credit(l, p, es))
  {
    var c := Credit(l, p, es);
    CreditShape(p, es);
    forall v | v in c.used ensures v.size >= 0 {
      var i :| 0 <= i < |c.used| && c.used[i] == v;
      assert p.used[i] in p.used && BytesOn(es, p.used[i].device) >= 0;
    }
    forall v | v in c.unused ensures v.size >= 0 {
      var i :| 0 <= i < |c.unused| && c.unused[i] == v;
      assert p.unused[i] in p.unused && BytesOn(es, p.unused[i].device) >= 0;
    }
    forall j | 0 <= j < |c.quotas| ensures c.quotas[j].NonNegative() {
      forall m: Meter ensures c.quotas[j].Get(m) >= 0 {
        HeldQuota(l, es, j, m);
        MeterZero(p.quotas[j], m);
      }
      NonNegativeByMeter(c.quotas[j]);
    }
  }

  lemma CreditShape(p: Pool, es: seq<Entry>)
    requires Distinct(p.used) && Distinct(p.unused) && Disjoint(p.used, p.unused)
    ensures var d := CreditVolumes(p.used, es); var u := CreditVolumes(p.unused, es);
      Distinct(d) && Distinct(u) && Disjoint(d, u)
  {
    var d, u := CreditVolumes(p.used, es), CreditVolumes(p.unused, es);
    forall i, j | 0 <= i < j < |d| ensures Apart(d[i], d[j]) {
      assert Apart(p.used[i], p.used[j]);
    }
    forall i, j | 0 <= i < j < |u| ensures Apart(u[i], u[j]) {
      assert Apart(p.unused[i], p.unused[j]);
    }
    forall v, w | v in d && w in u ensures Apart(v, w) {
      var i :| 0 <= i < |d| && d[i] == v;
      var j :| 0 <= j < |u| && u[j] == w;
      assert Apart(p.used[i], p.unused[j]);
    }
  }

  // ---- What keeps its device

  ghost predicate DistinctKeys(origin: VolumePlan) {
    forall i, j :: 0 <= i < j < |origin| ==> origin[i].binding.MapKey() != origin[j].binding.MapKey()
  }

  /** The origin entry of a request: same source, destination and flags. */
  function Match(origin: VolumePlan, req: VolumeBinding): (r: Option<Entry>)
    ensures r.Some? ==> r.value in origin && r.value.binding.MapKey() == req.MapKey()
    ensures r.None? ==> forall e :: e in origin ==> e.binding.MapKey() != req.MapKey()
  {
    if origin == [] then None
    else if origin[0].binding.MapKey() == req.MapKey() then Some(origin[0])
    else
      assert origin == [origin[0]] + origin[1..];
      Match(origin[1..], req)
  }

  /** The requests with a match, on the device of their match, with their own size. */
  function Kept(reqs: seq<VolumeBinding>, origin: VolumePlan): (es: seq<Entry>) {
    if reqs == [] then [] else
      var last := reqs[|reqs| - 1];
      Kept(reqs[..|reqs| - 1], origin) + match Match(origin, last) case None => [] case Some(o) => [Entry(last, o.device, last.size)]
  }

  /** The requests without a match. */
  function Unmatched(reqs: seq<VolumeBinding>, origin: VolumePlan): (r: seq<VolumeBinding>) {
    if reqs == [] then [] else
      var last := reqs[|reqs| - 1];
      Unmatched(reqs[..|reqs| - 1], origin) + if Match(origin, last).None? then [last] else []
  }

  function MonoSize(): Entry -> int {
    (e: Entry) => if e.binding.RequireScheduleMonopoly() then e.size else 0
  }

  /** The bytes that the origin's monopoly bindings hold together. */
  function MonoHeld(origin: VolumePlan): int {
    SumBy(MonoSize(), origin)
  }

  /** What is given back: the quota of the old mount requests, and the origin plan. */
  function Given(origin: VolumePlan, originRequests: seq<VolumeBinding>): seq<Entry> {
    MountEntries(Classify(originRequests).mount) + origin
  }

  /** Every device of the origin plan is on the host, and everything with quota is on a disk. */
  ghost predicate Releasable(l: Topology, p: Pool, origin: VolumePlan, originRequests: seq<VolumeBinding>) {
    && OnDisks(l, MountEntries(Classify(originRequests).mount))
    && forall e :: e in origin ==> OnHost(p, e.device) && (e.binding.RequireIOPS() ==> l.Disk(e.device).Some?)
  }

  /** The host can pay for all of these charges, in whatever order. */
  ghost predicate Payable(l: Topology, p: Pool, es: seq<Entry>) {
    Solvent(Debit(l, p, es)) && OnDisks(l, es)
  }

  function AllVolumes(p: Pool): seq<Volume> {
    p.used + p.unused
  }

  /** The volume of a device. */
  function VolumeNamed(vs: seq<Volume>, device: string): (r: Option<Volume>)
    ensures r.Some? ==> r.value in vs && r.value.device == device
    ensures r.None? ==> !Listed(vs, device)
  {
    if vs == [] then None
    else if vs[0].device == device then Some(vs[0])
    else
      assert vs == [vs[0]] + vs[1..];
      VolumeNamed(vs[1..], device)
  }

  /** The group of the monopoly requests when one of them is matched: the whole volume of a matched device. */
  ghost function KeptGroup(l: Topology, share: Share, p: Pool, mono: seq<VolumeBinding>, origin: VolumePlan,
      device: string): Option<seq<Entry>> {
    if MonoHeld(origin) < TotalSize(mono) then None else
      match VolumeNamed(AllVolumes(p), device)
      case None => None
      case Some(v) => if Fits(l, p.quotas, v, TotalBinding(mono)) then Some(MonoGroup(share, mono, v)) else None
  }

  /** Requests that must be scheduled anew. */
  function Anew(c: RequestClasses, origin: VolumePlan): seq<VolumeBinding> {
    Unmatched(c.normal, origin) + (if Kept(c.mono, origin) == [] then Unmatched(c.mono, origin) else []) + Unmatched(c.unlimited, origin)
  }

  /** The new plan, or the error; device is that of the matched monopoly entry looked at. */
  ghost function Reallocate(l: Topology, share: Share, p: Pool, requests: seq<VolumeBinding>, origin: VolumePlan,
      originRequests: seq<VolumeBinding>, device: string): Result<Deployment> {
    if !NeedSchedule(requests) then Ok(Deployment([], []))
    else if !Releasable(l, p, origin, originRequests) then Err(ErrInvalidVolume)
    else Recharge(l, share, Credit(l, p, Given(origin, originRequests)), Classify(requests), origin, device)
  }

  /** Matched normal requests, and the group of the monopoly requests when one of them is matched. */
  ghost function Placed(l: Topology, share: Share, d: Pool, c: RequestClasses, origin: VolumePlan, device: string): Option<VolumePlan> {
    if Kept(c.mono, origin) == [] then Some(Kept(c.normal, origin)) else
      match KeptGroup(l, share, d, c.mono, origin, device)
      case None => None
      case Some(group) => Some(Kept(c.normal, origin) + group)
  }

  /** Charging the new requests on the host without the origin. */
  ghost function Recharge(l: Topology, share: Share, r: Pool, c: RequestClasses, origin: VolumePlan, device: string): Result<Deployment> {
    var mounts, kept := MountEntries(c.mount), Kept(c.normal, origin);
    if !Payable(l, r, mounts + kept) then Err(ErrInsufficientResource) else
      match Placed(l, share, Debit(l, r, mounts + kept), c, origin, device)
      case None => Err(ErrInsufficientResource)
      case Some(placed) => Finish(l, share, Debit(l, r, mounts + placed), c, origin, placed, Added(DiskPlan(l, mounts), DiskPlan(l, placed)))
  }

  /** Pinning matched unlimited requests and scheduling what has no match. */
  ghost function Finish(l: Topology, share: Share, p: Pool, c: RequestClasses, origin: VolumePlan, placed: VolumePlan,
      disks: seq<Disk>): Result<Deployment> {
    var all := placed + Kept(c.unlimited, origin);
    if Anew(c, origin) == [] then Ok(Deployment(all, disks)) else
      var ds := Schedule(l, share, p, Anew(c, origin), 1, Planning);
      if ds == [] then Err(ErrInsufficientResource) else Ok(Deployment(all + ds[0].volumes, Added(disks, ds[0].disks)))
  }
}
