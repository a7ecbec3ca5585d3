/** The host that a valid node record makes. */
module HostRecords {
  import opened Quantity
  import opened Disks
  import opened Volumes
  import opened Charges
  import opened Passes
  import opened Resources
  import Records

  function InsertVolume(vs: seq<Volume>, x: Volume): (r: seq<Volume>)
    ensures multiset(r) == multiset(vs) + multiset{x} && |r| == |vs| + 1
  {
    if vs == [] || Leq(vs[|vs| - 1], x) then vs + [x] else
      assert vs == vs[..|vs| - 1] + [vs[|vs| - 1]];
      InsertVolume(vs[..|vs| - 1], x) + [vs[|vs| - 1]]
  }

  /** slices.SortStableFunc by size and device. */
  function SortVolumes(vs: seq<Volume>): (r: seq<Volume>)
    ensures multiset(r) == multiset(vs)
  {
    if vs == [] then [] else
      assert vs == vs[..|vs| - 1] + [vs[|vs| - 1]];
      InsertVolume(SortVolumes(vs[..|vs| - 1]), vs[|vs| - 1])
  }

  lemma {:induction false} InsertVolumeSorted(vs: seq<Volume>, x: Volume)
    requires Sorted(vs)
    ensures Sorted(InsertVolume(vs, x))
    ensures InsertVolume(vs, x)[|vs|] == if vs == [] || Leq(vs[|vs| - 1], x) then x else vs[|vs| - 1]
  {
    var n := |vs| - 1;
    if vs == [] {
      LessTotal(x, x);
    } else if Leq(vs[n], x) {
      forall i | 0 <= i < |vs| ensures Leq(vs[i], x) {
        LessTotal(vs[n], vs[n]);
        LeqTransitive(vs[i], vs[n], x);
      }
    } else {
      InsertVolumeSorted(vs[..n], x);
      LessTotal(x, vs[n]);
      LastStays(InsertVolume(vs[..n], x), vs[n], n);
    }
  }

  lemma LastStays(r: seq<Volume>, last: Volume, n: nat)
    requires |r| == n + 1 && Sorted(r) && Leq(r[n], last)
    ensures Sorted(r + [last])
  {
    forall i | 0 <= i <= n ensures Leq(r[i], last) {
      LessTotal(r[n], r[n]);
      LeqTransitive(r[i], r[n], last);
    }
  }

  lemma {:induction false} SortVolumesSorted(vs: seq<Volume>)
    ensures Sorted(SortVolumes(vs))
  {
    if vs != [] {
      SortVolumesSorted(vs[..|vs| - 1]);
      InsertVolumeSorted(SortVolumes(vs[..|vs| - 1]), vs[|vs| - 1]);
    }
  }

  // ---- From the record to the host

  /** The volume of a device as the host sees it: whole when nothing of it is used, else what is left. */
  function Free(capacity: Resource, usage: Resource, d: string): Volume
    requires d in capacity.volumes
  {
    Volume(d, capacity.volumes[d] - Stored(usage.volumes, d))
  }

  /** vs holds, sorted, the free part of exactly the capacity volumes whose usage is (not) zero. */
  ghost predicate FreeVolumes(capacity: Resource, usage: Resource, vs: seq<Volume>, untouched: bool) {
    && Sorted(vs) && Distinct(vs)
    && forall v :: v in vs <==>
         v.device in capacity.volumes && v == Free(capacity, usage, v.device) && (Stored(usage.volumes, v.device) == 0) == untouched
  }

  /** p is the host of a record. */
  ghost predicate HostOf(capacity: Resource, usage: Resource, p: Pool) {
    && FreeVolumes(capacity, usage, p.unused, true) && FreeVolumes(capacity, usage, p.used, false)
    && |p.quotas| == |capacity.disks|
    && forall j :: 0 <= j < |p.quotas| ==> QuotaLeft(capacity, usage, j, p.quotas[j])
  }

  ghost predicate QuotaLeft(capacity: Resource, usage: Resource, j: nat, q: Quota)
    requires j < |capacity.disks|
  {
    forall m: Meter :: q.Get(m) == capacity.disks[j].quota.Get(m) - TotalQuota(usage.disks, capacity.disks[j].device, m)
  }

  /** A record makes one host, in whatever order its maps are ranged over. */
  lemma HostUnique(capacity: Resource, usage: Resource, p: Pool, q: Pool)
    requires HostOf(capacity, usage, p) && HostOf(capacity, usage, q)
    ensures p == q
  {
    SameMembersSame(p.used, q.used);
    SameMembersSame(p.unused, q.unused);
    forall j | 0 <= j < |p.quotas| ensures p.quotas[j] == q.quotas[j] {
      assert QuotaLeft(capacity, usage, j, p.quotas[j]) && QuotaLeft(capacity, usage, j, q.quotas[j]);
      EqualByMeter(p.quotas[j], q.quotas[j]);
    }
  }

  lemma SameMembersSame(vs: seq<Volume>, ws: seq<Volume>)
    requires Sorted(vs) && Sorted(ws) && Distinct(vs) && Distinct(ws) && forall v :: v in vs <==> v in ws
    ensures vs == ws
  {
    forall v: Volume ensures multiset(vs)[v] == multiset(ws)[v] {
      if v in vs {
        CountOnce(vs, v);
        CountOnce(ws, v);
      } else {
        assert v !in multiset(vs) && v !in multiset(ws);
      }
    }
    assert multiset(vs) == multiset(ws);
    SortedUnique(vs, ws);
  }

  /** The host of a valid record lists each device once and overdraws nothing. */
  lemma HostGood(capacity: Resource, usage: Resource, p: Pool)
    requires Records.RecordValid(capacity, usage) && HostOf(capacity, usage, p)
    ensures Good(TopologyAt(LayoutOf(capacity.disks)), p) && UniqueSlots(LayoutOf(capacity.disks))
  {
    SlotsUnique(capacity.disks);
    forall v, w | v in p.used && w in p.unused ensures Apart(v, w) {
    }
    forall j | 0 <= j < |p.quotas| ensures p.quotas[j].NonNegative() {
      assert QuotaLeft(capacity, usage, j, p.quotas[j]);
      forall m: Meter ensures p.quotas[j].Get(m) >= 0 {
        UsageFits(capacity, usage, j, m);
      }
      NonNegativeByMeter(p.quotas[j]);
    }
  }

  /** The usage of a disk is at most its capacity. */
  lemma UsageFits(capacity: Resource, usage: Resource, j: nat, m: Meter)
    requires Records.RecordValid(capacity, usage) && j < |capacity.disks|
    ensures 0 <= TotalQuota(usage.disks, capacity.disks[j].device, m) <= capacity.disks[j].quota.Get(m)
  {
    var device := capacity.disks[j].device;
    assert capacity.disks[j] in capacity.disks;
    MeterZero(capacity.disks[j].quota, m);
    match IndexOf(usage.disks, device)
    case None => TotalQuotaAbsent(usage.disks, device, m);
    case Some(i) =>
      var u := usage.disks[i];
      assert u in usage.disks && Records.Covered(capacity.disks, u);
      TotalQuotaUnique(usage.disks, i, m);
      MeterZero(u.quota, m);
      LeqByMeter(u.quota, capacity.disks[j].quota);
  }

  // ---- The disks of the host

  /** Subtracting a valid usage keeps the disks and their mounts, and leaves what is not used. */
  lemma HostDisks(capacity: Resource, usage: Resource)
    requires Records.RecordValid(capacity, usage)
    ensures var ds := Added(capacity.disks, Negate(usage.disks));
      && LayoutOf(ds) == LayoutOf(capacity.disks)
      && forall j :: 0 <= j < |ds| ==> QuotaLeft(capacity, usage, j, ds[j].quota)
  {
    var ds := Added(capacity.disks, Negate(usage.disks));
    var ns := Negate(usage.disks);
    assert forall n :: n in ns ==> KnownMounts(capacity.disks, n) by {
      forall n | n in ns ensures KnownMounts(capacity.disks, n) {
        var i :| 0 <= i < |ns| && ns[i] == n;
        assert usage.disks[i] in usage.disks;
      }
    }
    KnownKeepLayout(capacity.disks, ns);
    LayoutUnique(capacity.disks, ds);
    forall j | 0 <= j < |ds| ensures QuotaLeft(capacity, usage, j, ds[j].quota) {
      forall m: Meter ensures ds[j].quota.Get(m) == capacity.disks[j].quota.Get(m) - TotalQuota(usage.disks, capacity.disks[j].device, m) {
        assert LayoutOf(ds)[j] == LayoutOf(capacity.disks)[j];
        TotalQuotaUnique(ds, j, m);
        TotalQuotaUnique(capacity.disks, j, m);
        SubbedTotal(capacity.disks, usage.disks, capacity.disks[j].device, m);
      }
    }
  }

  ghost predicate KnownMounts(ds: seq<Disk>, x: Disk) {
    var i := IndexOf(ds, x.device);
    i.Some? && ds[i.value].mounts == x.mounts
  }

  lemma {:induction false} KnownKeepLayout(ds: seq<Disk>, xs: seq<Disk>)
    requires forall x :: x in xs ==> KnownMounts(ds, x)
    ensures Missing(ds, xs) == [] && LayoutOf(BumpAll(ds, xs)) == LayoutOf(ds) && Added(ds, xs) == BumpAll(ds, xs)
  {
    if xs != [] {
      var n := |xs| - 1;
      assert xs == xs[..n] + [xs[n]];
      KnownKeepLayout(ds, xs[..n]);
      assert KnownMounts(ds, xs[n]);
      var b := BumpAll(ds, xs[..n]);
      SameIndex(ds, b, xs[n].device);
      var i := IndexOf(ds, xs[n].device).value;
      assert LayoutOf(b)[i] == LayoutOf(ds)[i];
      assert LayoutOf(Bump(b, xs[n])) == LayoutOf(b);
    }
  }

  lemma LayoutUnique(ds: seq<Disk>, es: seq<Disk>)
    requires LayoutOf(ds) == LayoutOf(es) && UniqueDevices(ds)
    ensures UniqueDevices(es)
  {
    SlotsUnique(ds);
    SlotsUnique(es);
  }

  // ---- Collecting the volumes of a record

  /** vs holds the free part of the volumes outside rest whose usage is (not) zero. */
  ghost predicate Collected(capacity: Resource, usage: Resource, rest: set<string>, vs: seq<Volume>, untouched: bool) {
    && Distinct(vs)
    && forall v :: v in vs <==>
         v.device in capacity.volumes && v.device !in rest && v == Free(capacity, usage, v.device)
         && (Stored(usage.volumes, v.device) == 0) == untouched
  }

  lemma CollectedNext(capacity: Resource, usage: Resource, rest: set<string>, vs: seq<Volume>, untouched: bool, d: string)
    requires Collected(capacity, usage, rest, vs, untouched) && d in rest && d in capacity.volumes
    ensures if (Stored(usage.volumes, d) == 0) == untouched
      then Collected(capacity, usage, rest - {d}, vs + [Free(capacity, usage, d)], untouched)
      else Collected(capacity, usage, rest - {d}, vs, untouched)
  {
    var r := vs + [Free(capacity, usage, d)];
    forall i, j | 0 <= i < j < |r| ensures Apart(r[i], r[j]) {
      assert vs[i] in vs;
      assert j < |vs| ==> Apart(vs[i], vs[j]);
    }
  }

  lemma CollectedAll(capacity: Resource, usage: Resource, vs: seq<Volume>, untouched: bool)
    requires Collected(capacity, usage, {}, vs, untouched)
    ensures FreeVolumes(capacity, usage, SortVolumes(vs), untouched)
  {
    SortVolumesSorted(vs);
    PermutationDistinct(vs, SortVolumes(vs));
  }

  /** The used and unused volumes of a record, sorted; the capacity map is ranged over in any order. */
  method CollectVolumes(capacity: Resource, usage: Resource) returns (used: seq<Volume>, unused: seq<Volume>)
    ensures FreeVolumes(capacity, usage, used, false) && FreeVolumes(capacity, usage, unused, true)
  {
    used, unused := [], [];
    var rest := capacity.volumes.Keys;
    while rest != {}
      invariant rest <= capacity.volumes.Keys
      invariant Collected(capacity, usage, rest, unused, true)
      invariant Collected(capacity, usage, rest, used, false)
      decreases |rest|
    {
      var device :| device in rest;
      CollectedNext(capacity, usage, rest, unused, true, device);
      CollectedNext(capacity, usage, rest, used, false, device);
      rest := rest - {device};
      var size := capacity.volumes[device];
      var taken := Stored(usage.volumes, device);
      if taken == 0 {
        unused := unused + [Volume(device, size)];
      } else {
        used := used + [Volume(device, size - taken)];
      }
    }
    CollectedAll(capacity, usage, unused, true);
    CollectedAll(capacity, usage, used, false);
    used, unused := SortVolumes(used), SortVolumes(unused);
  }
}
