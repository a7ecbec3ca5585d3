/** The record of a node: its validation, and the host a valid record makes. */
module Records {
  import opened Quantity
  import opened Volumes
  import opened Sums

  import opened Disks
  import opened Resources

  // ---- What validation asks

  predicate VolumesWithin(capacity: map<string, int>, usage: map<string, int>) {
    forall d :: d in capacity ==> capacity[d] >= 0 && (d in usage ==> 0 <= usage[d] <= capacity[d])
  }

  predicate StorageWithin(capacity: Resource, usage: Resource) {
    capacity.storage >= 0 && usage.storage >= 0
  }

  ghost predicate DisksWithin(capacity: seq<Disk>, usage: seq<Disk>) {
    && (forall c :: c in capacity ==> c.quota.NonNegative())
    && (forall c, u :: c in capacity && u in usage && c.device == u.device ==> u.quota.NonNegative() && u.quota.Leq(c.quota))
    && (forall u :: u in usage && !HasDevice(capacity, u.device) ==> u.quota.IsZero())
  }

  /** Usage fits capacity on every volume and disk, nothing is negative, and no unknown disk is drawn from. */
  ghost predicate Acceptable(capacity: Resource, usage: Resource) {
    && VolumesWithin(capacity.volumes, usage.volumes) && StorageWithin(capacity, usage)
    && DisksWithin(capacity.disks, usage.disks)
  }

  /** The usage of a record that has none yet. */
  function ZeroUsage(capacity: Resource): Resource {
    Resource(map d | d in capacity.volumes :: 0,
      seq(|capacity.disks|, i requires 0 <= i < |capacity.disks| =>
        Disk(capacity.disks[i].device, capacity.disks[i].mounts, Quota(0, 0, 0, 0))), 0)
  }

  // ---- Order of disks

  predicate DeviceLeq(a: Disk, b: Disk) {
    !NameLess(b.device, a.device)
  }

  function InsertDisk(ds: seq<Disk>, x: Disk): (r: seq<Disk>)
    ensures multiset(r) == multiset(ds) + multiset{x}
  {
    if ds == [] || DeviceLeq(ds[|ds| - 1], x) then ds + [x] else
      assert ds == ds[..|ds| - 1] + [ds[|ds| - 1]];
      InsertDisk(ds[..|ds| - 1], x) + [ds[|ds| - 1]]
  }

  /** slices.SortFunc by device. */
  function SortDisks(ds: seq<Disk>): (r: seq<Disk>)
    ensures multiset(r) == multiset(ds)
  {
    if ds == [] then [] else
      assert ds == ds[..|ds| - 1] + [ds[|ds| - 1]];
      InsertDisk(SortDisks(ds[..|ds| - 1]), ds[|ds| - 1])
  }

  lemma SortedSameMembers(ds: seq<Disk>)
    ensures forall x :: x in SortDisks(ds) <==> x in ds
  {
    forall x ensures x in SortDisks(ds) <==> x in ds {
      assert x in SortDisks(ds) <==> x in multiset(SortDisks(ds));
      assert x in ds <==> x in multiset(ds);
    }
  }

  lemma SortedUniqueDevices(ds: seq<Disk>)
    requires UniqueDevices(ds)
    ensures UniqueDevices(SortDisks(ds))
  {
    var r := SortDisks(ds);
    forall i, j | 0 <= i < j < |r| ensures r[i].device != r[j].device {
      SortedSameMembers(ds);
      assert r[i] in ds && r[j] in ds;
      var a :| 0 <= a < |ds| && ds[a] == r[i];
      var b :| 0 <= b < |ds| && ds[b] == r[j];
      if r[i].device == r[j].device {
        assert a == b;
        CountTwice(r, i, j);
        DiskOnce(ds, a);
      }
    }
  }

  ghost predicate InOrder(ds: seq<Disk>) {
    forall i, j :: 0 <= i < j < |ds| ==> DeviceLeq(ds[i], ds[j])
  }

  lemma DeviceOrder(a: Disk, b: Disk, c: Disk)
    ensures DeviceLeq(a, b) || DeviceLeq(b, a)
    ensures DeviceLeq(a, b) && DeviceLeq(b, c) ==> DeviceLeq(a, c)
  {
    NameLessTotal(a.device, b.device);
    NameLessTotal(b.device, c.device);
    NameLessTotal(a.device, c.device);
    if NameLess(a.device, b.device) && NameLess(b.device, c.device) {
      NameLessTransitive(a.device, b.device, c.device);
    }
  }

  /** Inserting into a list in order keeps it in order. */
  lemma {:induction false} InsertInOrder(ds: seq<Disk>, x: Disk)
    requires InOrder(ds)
    ensures InOrder(InsertDisk(ds, x))
  {
    var r := InsertDisk(ds, x);
    if ds != [] {
      var n := |ds| - 1;
      DeviceOrder(ds[n], x, x);
      if DeviceLeq(ds[n], x) {
        forall i | 0 <= i < |ds| ensures DeviceLeq(ds[i], x) {
          DeviceOrder(ds[i], ds[n], x);
        }
      } else {
        InsertInOrder(ds[..n], x);
        var front := InsertDisk(ds[..n], x);
        forall i | 0 <= i < |front| ensures DeviceLeq(front[i], ds[n]) {
          assert front[i] in multiset(ds[..n]) + multiset{x};
        }
      }
    }
  }

  lemma {:induction false} SortInOrder(ds: seq<Disk>)
    ensures InOrder(SortDisks(ds))
  {
    if ds != [] {
      SortInOrder(ds[..|ds| - 1]);
      InsertInOrder(SortDisks(ds[..|ds| - 1]), ds[|ds| - 1]);
    }
  }

  lemma {:induction false} OrderedIsSorted(ds: seq<Disk>)
    requires InOrder(ds)
    ensures SortDisks(ds) == ds
  {
    if ds != [] {
      var n := |ds| - 1;
      OrderedIsSorted(ds[..n]);
      InsertLast(ds[..n], ds[n]);
      assert ds == ds[..n] + [ds[n]];
    }
  }

  lemma InsertLast(ds: seq<Disk>, x: Disk)
    requires InOrder(ds + [x])
    ensures InsertDisk(ds, x) == ds + [x]
  {
    if ds != [] {
      assert DeviceLeq((ds + [x])[|ds| - 1], (ds + [x])[|ds|]);
    }
  }

  /** Sorting disks by device once is sorting them for good. */
  lemma SortedOnce(ds: seq<Disk>)
    ensures SortDisks(SortDisks(ds)) == SortDisks(ds)
  {
    SortInOrder(ds);
    OrderedIsSorted(SortDisks(ds));
  }

  lemma DiskOnce(ds: seq<Disk>, a: nat)
    requires UniqueDevices(ds) && a < |ds|
    ensures multiset(ds)[ds[a]] == 1
  {
    assert ds == ds[..a] + [ds[a]] + ds[a + 1..];
    assert ds[a] !in ds[..a] && ds[a] !in ds[a + 1..];
  }

  lemma SameMembersWithin(c: seq<Disk>, u: seq<Disk>, c': seq<Disk>, u': seq<Disk>)
    requires (forall x :: x in c <==> x in c') && (forall x :: x in u <==> x in u')
    ensures DisksWithin(c, u) ==> DisksWithin(c', u')
  {
    if DisksWithin(c, u) {
      forall x | x in u' && !HasDevice(c', x.device) ensures x.quota.IsZero() {
        forall i | 0 <= i < |c| ensures c[i].device != x.device {
          assert c[i] in c';
        }
      }
    }
  }

  // ---- What validation leaves of the usage

  /** A usage disk with the mounts of its capacity disk. */
  function Remount(u: Disk, capacity: seq<Disk>): Disk {
    match IndexOf(capacity, u.device)
    case None => u
    case Some(i) => u.(mounts := capacity[i].mounts)
  }

  /** The usage disks that the capacity knows, with its mounts. */
  function Kept(usage: seq<Disk>, capacity: seq<Disk>): (r: seq<Disk>) {
    if usage == [] then [] else
      var last := usage[|usage| - 1];
      Kept(usage[..|usage| - 1], capacity) + if IndexOf(capacity, last.device).Some? then [Remount(last, capacity)] else []
  }

  /** What the accounts of a valid record look like: capacity and usage list devices once, and usage lies within capacity. */
  ghost predicate RecordValid(capacity: Resource, usage: Resource) {
    && UniqueDevices(capacity.disks) && UniqueDevices(usage.disks)
    && VolumesWithin(capacity.volumes, usage.volumes) && StorageWithin(capacity, usage)
    && (forall c :: c in capacity.disks ==> c.quota.NonNegative())
    && (forall u :: u in usage.disks ==> Covered(capacity.disks, u))
  }

  /** A capacity disk has u's device and mounts and at least its quota. */
  ghost predicate Covered(capacity: seq<Disk>, u: Disk) {
    var i := IndexOf(capacity, u.device);
    i.Some? && capacity[i.value].mounts == u.mounts && u.quota.NonNegative() && u.quota.Leq(capacity[i.value].quota)
  }

  /** Validation keeps every account: what it drops held nothing. */
  lemma {:induction false} KeptAccounts(usage: seq<Disk>, capacity: seq<Disk>, device: string, m: Meter)
    requires DisksWithin(capacity, usage)
    ensures TotalQuota(Kept(usage, capacity), device, m) == TotalQuota(usage, device, m)
  {
    if usage != [] {
      var n := |usage| - 1;
      var front, last := usage[..n], usage[n];
      assert usage == front + [last];
      KeptAccounts(front, capacity, device, m);
      var kept := Kept(front, capacity);
      if IndexOf(capacity, last.device).Some? {
        assert (kept + [Remount(last, capacity)])[..|kept|] == kept;
      } else {
        assert last in usage && kept + [] == kept;
        NoQuota(last.quota, m);
      }
    }
  }

  lemma NoQuota(q: Quota, m: Meter)
    requires q.IsZero()
    ensures q.Get(m) == 0
  {
  }

  /** What validation keeps are the usage disks that the capacity knows, with its mounts. */
  lemma {:induction false} KeptMembers(usage: seq<Disk>, capacity: seq<Disk>, k: Disk) returns (i: nat)
    requires k in Kept(usage, capacity)
    ensures i < |usage| && IndexOf(capacity, usage[i].device).Some? && k == Remount(usage[i], capacity)
  {
    var n := |usage| - 1;
    if k in Kept(usage[..n], capacity) {
      i := KeptMembers(usage[..n], capacity, k);
    } else {
      i := n;
    }
  }

  lemma KeptCovered(usage: seq<Disk>, capacity: seq<Disk>)
    requires DisksWithin(capacity, usage)
    ensures forall k :: k in Kept(usage, capacity) ==> Covered(capacity, k)
  {
    forall k | k in Kept(usage, capacity) ensures Covered(capacity, k) {
      var i := KeptMembers(usage, capacity, k);
      assert usage[i] in usage && capacity[IndexOf(capacity, usage[i].device).value] in capacity;
    }
  }

  lemma {:induction false} KeptUnique(usage: seq<Disk>, capacity: seq<Disk>)
    requires UniqueDevices(usage)
    ensures UniqueDevices(Kept(usage, capacity))
  {
    if usage != [] {
      var n := |usage| - 1;
      KeptUnique(usage[..n], capacity);
      var kept := Kept(usage[..n], capacity);
      forall k | k in kept ensures k.device != usage[n].device {
        var a := KeptMembers(usage[..n], capacity, k);
        assert usage[a].device != usage[n].device;
      }
    }
  }

  /** An acceptable record with devices listed once is valid once its disks are sorted and its usage is pruned. */
  lemma AcceptableValid(capacity: Resource, usage: Resource)
    requires Acceptable(capacity, usage) && UniqueDevices(capacity.disks) && UniqueDevices(usage.disks)
    ensures RecordValid(Sorted(capacity), Settled(capacity, usage))
    ensures forall a: Account :: Balance(Settled(capacity, usage), a) == Balance(usage, a)
  {
    var c, u := SortDisks(capacity.disks), SortDisks(usage.disks);
    SortedSameMembers(capacity.disks);
    SortedSameMembers(usage.disks);
    SameMembersWithin(capacity.disks, usage.disks, c, u);
    SortedUniqueDevices(capacity.disks);
    SortedUniqueDevices(usage.disks);
    KeptCovered(u, c);
    KeptUnique(u, c);
    forall a: Account ensures Balance(Settled(capacity, usage), a) == Balance(usage, a) {
      if a.Draw? {
        KeptAccounts(u, c, a.disk, a.meter);
        TotalPermutation(u, usage.disks, a.disk, a.meter);
      }
    }
  }

  function Sorted(capacity: Resource): Resource {
    capacity.(disks := SortDisks(capacity.disks))
  }

  /** The usage that validation leaves. */
  function Settled(capacity: Resource, usage: Resource): Resource {
    usage.(disks := Kept(SortDisks(usage.disks), SortDisks(capacity.disks)))
  }

  function HoldsAt(device: string, m: Meter): Disk -> int {
    (d: Disk) => if d.device == device then d.quota.Get(m) else 0
  }

  lemma {:induction false} TotalIsSum(ds: seq<Disk>, device: string, m: Meter)
    ensures TotalQuota(ds, device, m) == SumBy(HoldsAt(device, m), ds)
  {
    if ds != [] {
      TotalIsSum(ds[..|ds| - 1], device, m);
    }
  }

  lemma TotalPermutation(ds: seq<Disk>, es: seq<Disk>, device: string, m: Meter)
    requires multiset(ds) == multiset(es)
    ensures TotalQuota(ds, device, m) == TotalQuota(es, device, m)
  {
    TotalIsSum(ds, device, m);
    TotalIsSum(es, device, m);
    SumPermutation(HoldsAt(device, m), ds, es);
  }
}
