/** Validation of a node record, in place. */
module NodeInfos {
  import opened Options
  import opened Disks
  import opened Resources
  import opened Records

  class NodeInfo {
    var capacity: NodeResource?
    var usage: NodeResource?

    constructor (capacity: NodeResource?, usage: NodeResource?)
      ensures this.capacity == capacity && this.usage == usage
    {
      this.capacity, this.usage := capacity, usage;
    }

    ghost function CapacityValue(): Resource
      reads this, capacity
    {
      if capacity == null then Resource(map[], [], 0) else capacity.Value()
    }

    /** The usage that validation looks at. */
    ghost function UsageValue(): Resource
      reads this, capacity, usage
    {
      if usage == null then ZeroUsage(CapacityValue()) else usage.Value()
    }

    method ValidateVolume() returns (errors: seq<Error>)
      requires capacity != null && usage != null
      ensures errors == if VolumesWithin(capacity.volumes, usage.volumes) then [] else [ErrInvalidVolume]
    {
      var rest := capacity.volumes.Keys;
      while rest != {}
        invariant rest <= capacity.volumes.Keys
        invariant forall d :: d in capacity.volumes && d !in rest ==>
          capacity.volumes[d] >= 0 && (d in usage.volumes ==> 0 <= usage.volumes[d] <= capacity.volumes[d])
        decreases |rest|
      {
        var key :| key in rest;
        rest := rest - {key};
        var value := capacity.volumes[key];
        if value < 0 {
          return [ErrInvalidVolume];
        }
        if key in usage.volumes && (usage.volumes[key] > value || usage.volumes[key] < 0) {
          return [ErrInvalidVolume];
        }
      }
      errors := [];
    }

    method ValidateStorage() returns (errors: seq<Error>)
      requires capacity != null && usage != null
      ensures errors == if StorageWithin(capacity.Value(), usage.Value()) then [] else [ErrInvalidStorage]
    {
      if capacity.storage < 0 || usage.storage < 0 {
        return [ErrInvalidStorage];
      }
      errors := [];
    }

    /** Checks capacity disk i against its usage and copies its mounts. */
    method CheckDisk(i: nat, ghost u: seq<Disk>) returns (ok: bool)
      requires capacity != null && usage != null && capacity != usage && i < |capacity.disks|
      requires UniqueDevices(capacity.disks) && UniqueDevices(u) && usage.disks == Remounted(u, capacity.disks[..i])
      modifies usage`disks
      ensures ok <==> DiskWithin(capacity.disks[i], u)
      ensures ok ==> usage.disks == Remounted(u, capacity.disks[..i + 1])
    {
      var disk := capacity.disks[i];
      if !disk.quota.NonNegative() {
        return false;
      }
      RemountNext(u, capacity.disks, i);
      SameIndex(u, usage.disks, disk.device);
      var k := GetDiskByDevice(usage.disks, disk.device);
      OnlyUsage(u, disk.device);
      hide UniqueDevices, Remount;
      if k.None? {
        return true;
      }
      usage.disks := usage.disks[k.value := usage.disks[k.value].(mounts := disk.mounts)];
      var used := usage.disks[k.value].quota;
      if !used.NonNegative() {
        return false;
      }
      if !used.Leq(disk.quota) {
        return false;
      }
      ok := true;
    }

    /** Checks every disk against its usage and copies the mounts. */
    method ValidateUsage() returns (ok: bool)
      requires capacity != null && usage != null && capacity != usage
      requires UniqueDevices(capacity.disks) && UniqueDevices(usage.disks)
      modifies usage`disks
      ensures ok <==> UsageWithin(capacity.disks, old(usage.disks), |capacity.disks|)
      ensures ok ==> usage.disks == Remounted(old(usage.disks), capacity.disks)
    {
      ghost var u := usage.disks;
      assert capacity.disks[..0] == [] && Remounted(u, []) == u;
      for i := 0 to |capacity.disks|
        invariant usage.disks == Remounted(u, capacity.disks[..i])
        invariant UsageWithin(capacity.disks, u, i)
      {
        ok := CheckDisk(i, u);
        if !ok {
          return;
        }
      }
      assert capacity.disks[..|capacity.disks|] == capacity.disks;
      ok := true;
    }

    /** Checks all disks, and drops the usage of disks that the capacity does not know, which must be nothing. */
    method ValidateDisks() returns (errors: seq<Error>)
      requires capacity != null && usage != null && capacity != usage
      requires UniqueDevices(capacity.disks) && UniqueDevices(usage.disks)
      modifies usage`disks
      ensures errors == [] || errors == [ErrInvalidDisk]
      ensures errors == [] <==> DisksWithin(capacity.disks, old(usage.disks))
      ensures errors == [] ==> usage.disks == Kept(old(usage.disks), capacity.disks)
    {
      ghost var u := usage.disks;
      var ok := ValidateUsage();
      UsageWithinAll(capacity.disks, u);
      if !ok {
        return [ErrInvalidDisk];
      }
      var kept: seq<Disk> := [];
      for i := 0 to |usage.disks|
        invariant usage.disks == Remounted(u, capacity.disks)
        invariant forall k :: 0 <= k < i && !HasDevice(capacity.disks, u[k].device) ==> u[k].quota.IsZero()
        invariant kept == Kept(u[..i], capacity.disks)
      {
        var disk := usage.disks[i];
        assert u[..i + 1][..i] == u[..i];
        var found := GetDiskByDevice(capacity.disks, disk.device);
        if found.None? {
          if !disk.quota.IsZero() {
            assert u[i] in u;
            return [ErrInvalidDisk];
          }
        } else {
          kept := kept + [disk];
        }
      }
      assert u[..|u|] == u;
      usage.disks := kept;
      errors := [];
    }

    /** Fills a missing usage, sorts both disk lists, and checks volumes, storage and disks. */
    method Validate() returns (errors: seq<Error>)
      requires capacity != null ==> capacity != usage && UniqueDevices(capacity.disks)
      requires usage != null ==> UniqueDevices(usage.disks)
      modifies this`usage, capacity, usage
      ensures capacity == old(capacity) && (old(usage) != null ==> usage == old(usage))
      ensures capacity == null ==> errors == [ErrInvalidCapacity]
      ensures capacity != null ==> usage != null && CapacityValue() == Sorted(old(CapacityValue()))
      ensures capacity != null ==> (errors == [] <==> Acceptable(old(CapacityValue()), old(UsageValue())))
      ensures capacity != null && errors == [] ==> UsageValue() == Settled(old(CapacityValue()), old(UsageValue()))
    {
      if capacity == null {
        return [ErrInvalidCapacity];
      }
      ghost var c, u := capacity.Value(), UsageValue();
      if usage == null {
        usage := new NodeResource(ZeroUsage(capacity.Value()));
        ZeroUnique(capacity.Value());
      }
      SortedUniqueDevices(capacity.disks);
      SortedUniqueDevices(usage.disks);
      SortedAcceptable(c, u);
      usage.disks := SortDisks(usage.disks);
      capacity.disks := SortDisks(capacity.disks);
      var e1 := ValidateVolume();
      var e2 := ValidateStorage();
      var e3 := ValidateDisks();
      errors := e1 + e2 + e3;
    }
  }

  lemma UsageWithinAll(capacity: seq<Disk>, usage: seq<Disk>)
    ensures DisksWithin(capacity, usage) <==>
      && UsageWithin(capacity, usage, |capacity|)
      && forall u :: u in usage && !HasDevice(capacity, u.device) ==> u.quota.IsZero()
  {
    if UsageWithin(capacity, usage, |capacity|) {
      forall c | c in capacity ensures DiskWithin(c, usage) {
        var i :| 0 <= i < |capacity| && capacity[i] == c;
      }
    }
    if DisksWithin(capacity, usage) {
      forall i | 0 <= i < |capacity| ensures DiskWithin(capacity[i], usage) {
        assert capacity[i] in capacity;
      }
    }
  }

  lemma ZeroUnique(c: Resource)
    requires UniqueDevices(c.disks)
    ensures UniqueDevices(ZeroUsage(c).disks)
  {
  }

  /** Sorting does not change what is acceptable. */
  lemma SortedAcceptable(c: Resource, u: Resource)
    ensures DisksWithin(SortDisks(c.disks), SortDisks(u.disks)) <==> DisksWithin(c.disks, u.disks)
  {
    SortedSameMembers(c.disks);
    SortedSameMembers(u.disks);
    SameMembersWithin(c.disks, u.disks, SortDisks(c.disks), SortDisks(u.disks));
    SameMembersWithin(SortDisks(c.disks), SortDisks(u.disks), c.disks, u.disks);
  }

  function Remounted(usage: seq<Disk>, capacity: seq<Disk>): (r: seq<Disk>)
    ensures |r| == |usage| && forall k :: 0 <= k < |usage| ==> r[k].device == usage[k].device && r[k].quota == usage[k].quota
  {
    seq(|usage|, k requires 0 <= k < |usage| => Remount(usage[k], capacity))
  }

  /** The first n capacity disks are not negative, nor is what is used of them, nor more than they have. */
  ghost predicate UsageWithin(capacity: seq<Disk>, usage: seq<Disk>, n: nat)
    requires n <= |capacity|
  {
    forall i :: 0 <= i < n ==> DiskWithin(capacity[i], usage)
  }

  ghost predicate DiskWithin(c: Disk, usage: seq<Disk>) {
    c.quota.NonNegative() && forall u :: u in usage && u.device == c.device ==> u.quota.NonNegative() && u.quota.Leq(c.quota)
  }

  /** The usage of a device is the one entry found for it. */
  lemma OnlyUsage(u: seq<Disk>, device: string)
    requires UniqueDevices(u)
    ensures match IndexOf(u, device)
      case None => forall x :: x in u ==> x.device != device
      case Some(k) => forall x :: x in u && x.device == device ==> x == u[k]
  {
  }

  /** Looking at one more capacity disk remounts the usage of its device. */
  lemma RemountNext(u: seq<Disk>, capacity: seq<Disk>, i: nat)
    requires UniqueDevices(capacity) && UniqueDevices(u) && i < |capacity|
    ensures var k := IndexOf(u, capacity[i].device); var r := Remounted(u, capacity[..i]);
      Remounted(u, capacity[..i + 1]) == if k.None? then r else r[k.value := r[k.value].(mounts := capacity[i].mounts)]
  {
    var k := IndexOf(u, capacity[i].device);
    forall a | 0 <= a < |u| ensures Remount(u[a], capacity[..i + 1]) ==
      if k == Some(a) then Remount(u[a], capacity[..i]).(mounts := capacity[i].mounts) else Remount(u[a], capacity[..i])
    {
      IndexNext(capacity, i, u[a].device);
    }
  }

  lemma IndexNext(ds: seq<Disk>, i: nat, device: string)
    requires UniqueDevices(ds) && i < |ds|
    ensures IndexOf(ds[..i + 1], device) == if ds[i].device == device then Some(i) else IndexOf(ds[..i], device)
    ensures ds[i].device == device ==> IndexOf(ds[..i], device).None?
  {
    var p, q := ds[..i], ds[..i + 1];
    assert q == p + [ds[i]];
    var a := IndexOf(q, device);
    if a.Some? && a.value < i {
      assert p[a.value].device == device;
    }
    var b := IndexOf(p, device);
    if b.Some? {
      assert q[b.value].device == device;
    }
    if ds[i].device == device {
      assert q[i].device == device;
    }
  }
}
