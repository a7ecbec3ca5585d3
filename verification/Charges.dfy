/** Plans as lists of charges, and what is left of a host after a list of charges. */
module Charges {
  import opened Quantity
  import opened Options
  import opened Bindings
  import opened Disks
  import opened Volumes
  import opened Sums

  /** A binding placed on a device with a size. A mount binding is charged with its source as device and no bytes. */
  datatype Entry = Entry(binding: VolumeBinding, device: string, size: int)

  /** The source's map from binding to device and size; the order of the list is one order the map may be ranged in. */
  type VolumePlan = seq<Entry>

  function BytesAt(device: string): Entry -> int {
    (e: Entry) => if e.device == device then e.size else 0
  }

  function BytesOn(es: seq<Entry>, device: string): int {
    SumBy(BytesAt(device), es)
  }

  /** What an entry draws from one meter of disk j. */
  function MeterAt(l: Topology, j: nat, m: Meter): Entry -> int {
    (e: Entry) => if l.Disk(e.device) == Some(j) then e.binding.quota.Get(m) else 0
  }

  /** What a list of entries draws from one meter of disk j. */
  function QuotaOn(l: Topology, es: seq<Entry>, j: nat, m: Meter): int {
    SumBy(MeterAt(l, j, m), es)
  }

  lemma BytesConcat(a: seq<Entry>, b: seq<Entry>, device: string)
    ensures BytesOn(a + b, device) == BytesOn(a, device) + BytesOn(b, device)
  {
    SumConcat(BytesAt(device), a, b);
  }

  lemma QuotaConcat(l: Topology, a: seq<Entry>, b: seq<Entry>, j: nat, m: Meter)
    ensures QuotaOn(l, a + b, j, m) == QuotaOn(l, a, j, m) + QuotaOn(l, b, j, m)
  {
    SumConcat(MeterAt(l, j, m), a, b);
  }

  lemma BytesAppend(es: seq<Entry>, e: Entry, device: string)
    ensures BytesOn(es + [e], device) == BytesOn(es, device) + if e.device == device then e.size else 0
  {
    SumAppend(BytesAt(device), es, e);
  }

  lemma QuotaAppend(l: Topology, es: seq<Entry>, e: Entry, j: nat, m: Meter)
    ensures QuotaOn(l, es + [e], j, m)
         == QuotaOn(l, es, j, m) + if l.Disk(e.device) == Some(j) then e.binding.quota.Get(m) else 0
  {
    SumAppend(MeterAt(l, j, m), es, e);
  }

  ghost predicate NonNegativeCharges(es: seq<Entry>) {
    forall e :: e in es ==> e.size >= 0 && e.binding.quota.NonNegative()
  }

  lemma BytesNonNegative(es: seq<Entry>, device: string)
    requires NonNegativeCharges(es)
    ensures BytesOn(es, device) >= 0
    ensures forall e :: e in es && e.device == device ==> e.size <= BytesOn(es, device)
  {
    SumNonNegative(BytesAt(device), es);
    forall e | e in es && e.device == device ensures e.size <= BytesOn(es, device) {
      assert BytesAt(device)(e) == e.size;
    }
  }

  lemma QuotaNonNegative(l: Topology, es: seq<Entry>, j: nat, m: Meter)
    requires NonNegativeCharges(es)
    ensures QuotaOn(l, es, j, m) >= 0
    ensures forall e :: e in es && l.Disk(e.device) == Some(j) ==> e.binding.quota.Get(m) <= QuotaOn(l, es, j, m)
  {
    SumNonNegative(MeterAt(l, j, m), es);
    forall e | e in es && l.Disk(e.device) == Some(j) ensures e.binding.quota.Get(m) <= QuotaOn(l, es, j, m) {
      assert MeterAt(l, j, m)(e) == e.binding.quota.Get(m);
    }
  }

  // ---- What charges leave of a host

  /** The free bytes of used and unused volumes and the free quota of every disk. */
  datatype Pool = Pool(used: seq<Volume>, unused: seq<Volume>, quotas: seq<Quota>)

  function DebitVolumes(vs: seq<Volume>, es: seq<Entry>): (r: seq<Volume>)
    ensures |r| == |vs|
    ensures forall i :: 0 <= i < |vs| ==> r[i] == Volume(vs[i].device, vs[i].size - BytesOn(es, vs[i].device))
  {
    seq(|vs|, i requires 0 <= i < |vs| => Volume(vs[i].device, vs[i].size - BytesOn(es, vs[i].device)))
  }

  function DebitQuota(l: Topology, q: Quota, es: seq<Entry>, j: nat): (r: Quota)
    ensures forall m: Meter :: r.Get(m) == q.Get(m) - QuotaOn(l, es, j, m)
  {
    Quota(q.readIOPS - QuotaOn(l, es, j, ReadIOPS), q.writeIOPS - QuotaOn(l, es, j, WriteIOPS),
          q.readBPS - QuotaOn(l, es, j, ReadBPS), q.writeBPS - QuotaOn(l, es, j, WriteBPS))
  }

  function DebitQuotas(l: Topology, qs: seq<Quota>, es: seq<Entry>): (r: seq<Quota>)
    ensures |r| == |qs|
    ensures forall j :: 0 <= j < |qs| ==> r[j] == DebitQuota(l, qs[j], es, j)
  {
    seq(|qs|, j requires 0 <= j < |qs| => DebitQuota(l, qs[j], es, j))
  }

  function Debit(l: Topology, p: Pool, es: seq<Entry>): Pool {
    Pool(DebitVolumes(p.used, es), DebitVolumes(p.unused, es), DebitQuotas(l, p.quotas, es))
  }

  lemma DebitNil(l: Topology, p: Pool)
    ensures Debit(l, p, []) == p
  {
    assert DebitVolumes(p.used, []) == p.used;
    assert DebitVolumes(p.unused, []) == p.unused;
    assert DebitQuotas(l, p.quotas, []) == p.quotas;
  }

  lemma DebitVolumesConcat(vs: seq<Volume>, a: seq<Entry>, b: seq<Entry>)
    ensures DebitVolumes(vs, a + b) == DebitVolumes(DebitVolumes(vs, a), b)
  {
    var r, s := DebitVolumes(vs, a + b), DebitVolumes(DebitVolumes(vs, a), b);
    forall i | 0 <= i < |vs| ensures r[i] == s[i] {
      SumConcat(BytesAt(vs[i].device), a, b);
    }
  }

  lemma DebitQuotasConcat(l: Topology, qs: seq<Quota>, a: seq<Entry>, b: seq<Entry>)
    ensures DebitQuotas(l, qs, a + b) == DebitQuotas(l, DebitQuotas(l, qs, a), b)
  {
    var r, s := DebitQuotas(l, qs, a + b), DebitQuotas(l, DebitQuotas(l, qs, a), b);
    forall j | 0 <= j < |qs| ensures r[j] == s[j] {
      forall m: Meter ensures r[j].Get(m) == s[j].Get(m) {
        QuotaConcat(l, a, b, j, m);
      }
      EqualByMeter(r[j], s[j]);
    }
  }

  lemma DebitConcat(l: Topology, p: Pool, a: seq<Entry>, b: seq<Entry>)
    ensures Debit(l, p, a + b) == Debit(l, Debit(l, p, a), b)
  {
    DebitVolumesConcat(p.used, a, b);
    DebitVolumesConcat(p.unused, a, b);
    DebitQuotasConcat(l, p.quotas, a, b);
  }

  lemma DebitPermutation(l: Topology, p: Pool, a: seq<Entry>, b: seq<Entry>)
    requires multiset(a) == multiset(b)
    ensures Debit(l, p, a) == Debit(l, p, b)
  {
    DebitVolumesPermutation(p.used, a, b);
    DebitVolumesPermutation(p.unused, a, b);
    var r, s := DebitQuotas(l, p.quotas, a), DebitQuotas(l, p.quotas, b);
    forall j | 0 <= j < |p.quotas| ensures r[j] == s[j] {
      forall m: Meter ensures r[j].Get(m) == s[j].Get(m) {
        SumPermutation(MeterAt(l, j, m), a, b);
      }
      EqualByMeter(r[j], s[j]);
    }
  }

  lemma DebitVolumesPermutation(vs: seq<Volume>, a: seq<Entry>, b: seq<Entry>)
    requires multiset(a) == multiset(b)
    ensures DebitVolumes(vs, a) == DebitVolumes(vs, b)
  {
    var r, s := DebitVolumes(vs, a), DebitVolumes(vs, b);
    forall i | 0 <= i < |vs| ensures r[i] == s[i] {
      SumPermutation(BytesAt(vs[i].device), a, b);
    }
  }

  ghost predicate NonNegativeQuotas(qs: seq<Quota>) {
    forall j :: 0 <= j < |qs| ==> qs[j].NonNegative()
  }

  /** Nothing is overdrawn. */
  ghost predicate Solvent(p: Pool) {
    NonNegative(p.used) && NonNegative(p.unused) && NonNegativeQuotas(p.quotas)
  }

  // ---- Disk plans

  /** One entry's quota added to a disk plan, when it asks for any. */
  function Accumulate(l: Topology, plan: seq<Disk>, e: Entry): seq<Disk> {
    match l.Disk(e.device)
    case None => plan
    case Some(j) =>
      if e.binding.RequireIOPS() then Added(plan, [Disk(l.slots[j].device, l.slots[j].mounts, e.binding.quota)]) else plan
  }

  /** The disk plan that accumulates the quota of a list of entries. */
  function DiskPlan(l: Topology, es: seq<Entry>): seq<Disk> {
    if es == [] then [] else Accumulate(l, DiskPlan(l, es[..|es| - 1]), es[|es| - 1])
  }

  /** Adding one quota entry to a plan that has each device once. */
  lemma AddedOne(plan: seq<Disk>, x: Disk, device: string, m: Meter)
    requires UniqueDevices(plan)
    ensures UniqueDevices(Added(plan, [x]))
    ensures TotalQuota(Added(plan, [x]), device, m) == TotalQuota(plan, device, m) + if x.device == device then x.quota.Get(m) else 0
  {
    AddedTotal(plan, [x], device, m);
    AddedUnique(plan, [x]);
    TotalQuotaUnique([x], 0, m);
    if x.device != device {
      TotalQuotaAbsent([x], device, m);
    }
  }

  lemma AccumulateTotal(l: Topology, plan: seq<Disk>, e: Entry, j: nat, m: Meter)
    requires UniqueSlots(l.slots) && j < |l.slots| && UniqueDevices(plan) && e.binding.quota.NonNegative()
    ensures UniqueDevices(Accumulate(l, plan, e))
    ensures TotalQuota(Accumulate(l, plan, e), l.slots[j].device, m) == TotalQuota(plan, l.slots[j].device, m)
      + if l.Disk(e.device) == Some(j) then e.binding.quota.Get(m) else 0
  {
    match l.Disk(e.device)
    case None =>
    case Some(i) =>
      AddedOne(plan, Disk(l.slots[i].device, l.slots[i].mounts, e.binding.quota), l.slots[j].device, m);
  }

  /** A disk plan lists each device once, and holds against each disk exactly what the entries draw from it. */
  lemma {:induction false} DiskPlanTotal(l: Topology, es: seq<Entry>, j: nat, m: Meter)
    requires UniqueSlots(l.slots) && j < |l.slots|
    requires forall e :: e in es ==> e.binding.quota.NonNegative()
    ensures TotalQuota(DiskPlan(l, es), l.slots[j].device, m) == QuotaOn(l, es, j, m)
    ensures UniqueDevices(DiskPlan(l, es))
  {
    if es != [] {
      var front := es[..|es| - 1];
      var e := es[|es| - 1];
      assert es == front + [e];
      DiskPlanTotal(l, front, j, m);
      QuotaAppend(l, front, e, j, m);
      AccumulateTotal(l, DiskPlan(l, front), e, j, m);
    }
  }
}
