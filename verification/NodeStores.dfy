/** The stored record of one node and the operations that change its usage. */
module NodeStores {
  import opened Quantity
  import opened Options
  import opened Disks
  import opened Resources
  import opened Records
  import opened NodeInfos
  import opened Ledgers

  datatype Diff = StorageDiff | VolumeDiff(device: string) | DiskDiff(disk: string)

  class NodeStore {
    var capacity: Resource
    var usage: Resource

    ghost predicate Valid()
      reads this
    {
      UniqueDevices(capacity.disks) && UniqueDevices(usage.disks)
    }

    /** The node's ledger when these workloads are live. */
    ghost function With(live: seq<Workload>): Ledger
      reads this
    {
      Ledger(capacity, usage, live)
    }

    constructor (capacity: Resource)
      requires UniqueDevices(capacity.disks)
      ensures Valid() && With([]) == Ledger(capacity, NOTHING, [])
    {
      this.capacity := capacity;
      usage := NOTHING;
    }

    /** Writes a usage when the record with it validates, and leaves the record alone otherwise. */
    method Put(newUsage: Resource, ghost before: seq<Workload>, ghost live: seq<Workload>) returns (ok: bool)
      requires Valid() && UniqueDevices(newUsage.disks)
      modifies this
      ensures Valid() && (ok <==> Acceptable(old(capacity), newUsage))
      ensures With(if ok then live else before) == Commit(old(With(before)), newUsage, live)
    {
      var c := new NodeResource(capacity);
      var u := new NodeResource(newUsage);
      var info := new NodeInfo(c, u);
      var errors := info.Validate();
      ok := errors == [];
      if ok {
        AcceptableValid(capacity, newUsage);
        capacity, usage := c.Value(), u.Value();
      }
    }

    /** Adds the usage of new workloads. */
    method Deploy(ws: seq<Workload>, ghost live: seq<Workload>) returns (ok: bool)
      requires Valid() && AllUnique(ws)
      modifies this
      ensures Valid() && With(if ok then live + ws else live) == Take(old(With(live)), Step.Deploy(ws))
    {
      var r := CalculateNodeResource(None, Some(usage), ws, true, true);
      AccumulatedUnique(usage, ws, true);
      ok := Put(r.Value(), live, live + ws);
    }

    /** Replaces workload i by its reallocation, through the delta resource. */
    method Realloc(origin: Workload, target: Workload, ghost live: seq<Workload>, ghost i: nat) returns (ok: bool)
      requires Valid() && i < |live| && origin == live[i] && UniqueDevices(origin.disks) && UniqueDevices(target.disks)
      modifies this
      ensures Valid() && With(if ok then live[i := target] else live) == Take(old(With(live)), Step.Realloc(i, target))
    {
      var delta := GetDelta(origin, target);
      NegateUnique(origin.disks);
      AddedUnique(target.disks, Negate(origin.disks));
      var r := CalculateNodeResource(None, Some(usage), [delta], true, true);
      AccumulatedUnique(usage, [delta], true);
      ok := Put(r.Value(), live, live[i := target]);
    }

    /** Takes the usage of workload i off. */
    method Release(w: Workload, ghost live: seq<Workload>, ghost i: nat) returns (ok: bool)
      requires Valid() && i < |live| && w == live[i] && UniqueDevices(w.disks)
      modifies this
      ensures Valid() && With(if ok then live[..i] + live[i + 1..] else live) == Take(old(With(live)), Step.Release(i))
    {
      var r := CalculateNodeResource(None, Some(usage), [w], true, false);
      AccumulatedUnique(usage, [w], false);
      ok := Put(r.Value(), live, live[..i] + live[i + 1..]);
    }

    /** What the workloads use, added up without mounts. */
    method Compute(ws: seq<Workload>) returns (computed: Resource)
      ensures computed == Accumulated(NOTHING, Unmounted(ws), true)
    {
      var r := new NodeResource(NOTHING);
      for i := 0 to |ws|
        invariant fresh(r) && r.Value() == Accumulated(NOTHING, Unmounted(ws)[..i], true)
      {
        assert Unmounted(ws)[..i + 1][..i] == Unmounted(ws)[..i];
        var volumes := SumVolumes(ws[i]);
        var w := new NodeResource(Resource(volumes, WithoutMounts(ws[i].disks), ws[i].storage));
        r.Add(w);
      }
      assert Unmounted(ws)[..|ws|] == Unmounted(ws);
      computed := r.Value();
    }

    /** The volumes of either side that disagree, in any order of the merged map. */
    method CompareVolumes(computed: Resource) returns (diffs: seq<Diff>)
      ensures forall x :: x in diffs <==> x.VolumeDiff? && Stored(usage.volumes, x.device) != Stored(computed.volumes, x.device)
    {
      diffs := [];
      var rest := usage.volumes.Keys + computed.volumes.Keys;
      while rest != {}
        invariant rest <= usage.volumes.Keys + computed.volumes.Keys
        invariant forall x :: x in diffs <==>
          x.VolumeDiff? && x.device !in rest && Stored(usage.volumes, x.device) != Stored(computed.volumes, x.device)
        decreases |rest|
      {
        var volume :| volume in rest;
        rest := rest - {volume};
        if Stored(usage.volumes, volume) != Stored(computed.volumes, volume) {
          diffs := diffs + [VolumeDiff(volume)];
        }
      }
    }

    /** The stored disks that disagree. */
    method CompareDisks(computed: Resource) returns (diffs: seq<Diff>)
      ensures forall x :: x in diffs <==> x.DiskDiff? && DiskDisagrees(usage.disks, computed.disks, x.disk, |usage.disks|)
    {
      diffs := [];
      for i := 0 to |usage.disks|
        invariant forall x :: x in diffs <==> x.DiskDiff? && DiskDisagrees(usage.disks, computed.disks, x.disk, i)
      {
        var disk := usage.disks[i];
        var k := GetDiskByDevice(computed.disks, disk.device);
        var quota := if k.Some? then computed.disks[k.value].quota else Quota(0, 0, 0, 0);
        if quota != disk.quota {
          diffs := diffs + [DiskDiff(disk.device)];
        }
      }
    }

    /** Lists every account of the stored usage, and every volume of the workloads, that disagrees. */
    method Compare(computed: Resource) returns (diffs: seq<Diff>)
      ensures StorageDiff in diffs <==> usage.storage != computed.storage
      ensures forall d :: VolumeDiff(d) in diffs <==> Stored(usage.volumes, d) != Stored(computed.volumes, d)
      ensures forall d :: DiskDiff(d) in diffs <==> DiskDisagrees(usage.disks, computed.disks, d, |usage.disks|)
      ensures diffs == [] <==> NoDiffs(usage, computed)
    {
      diffs := [];
      if usage.storage != computed.storage {
        diffs := [StorageDiff];
      }
      var volumes := CompareVolumes(computed);
      var disks := CompareDisks(computed);
      diffs := diffs + volumes + disks;
      DiffsExact(usage, computed, diffs);
    }

    /** Rewrites the usage when it disagrees with the workloads; after a fix that goes through the comparison finds nothing. */
    method Fix(ws: seq<Workload>) returns (ok: bool)
      requires Valid() && AllUnique(ws)
      modifies this
      ensures Valid() && With(ws) == Take(old(With(ws)), Step.Fix)
      ensures ok <==> NoDiffs(usage, Accumulated(NOTHING, Unmounted(ws), true))
    {
      var computed := Compute(ws);
      ComputedBalance(ws);
      var diffs := Compare(computed);
      ok := true;
      if diffs != [] {
        ok := Put(computed, ws, ws);
        if ok {
          FixedReportsNothing(old(capacity), ws);
        }
      }
    }
  }

  /** One of the first n stored disks is this device and holds something else than the workloads. */
  ghost predicate DiskDisagrees(stored: seq<Disk>, computed: seq<Disk>, device: string, n: nat)
    requires n <= |stored|
  {
    exists k :: 0 <= k < n && stored[k].device == device && stored[k].quota != ComputedQuota(computed, device)
  }

  lemma DiffsExact(usage: Resource, computed: Resource, diffs: seq<Diff>)
    requires StorageDiff in diffs <==> usage.storage != computed.storage
    requires forall d :: VolumeDiff(d) in diffs <==> Stored(usage.volumes, d) != Stored(computed.volumes, d)
    requires forall d :: DiskDiff(d) in diffs <==> DiskDisagrees(usage.disks, computed.disks, d, |usage.disks|)
    ensures diffs == [] <==> NoDiffs(usage, computed)
  {
    if diffs != [] {
      match diffs[0]
      case StorageDiff => assert StorageDiff in diffs;
      case VolumeDiff(d) => assert VolumeDiff(d) in diffs;
      case DiskDiff(d) =>
        assert DiskDiff(d) in diffs;
        var k :| 0 <= k < |usage.disks| && usage.disks[k].device == d && usage.disks[k].quota != ComputedQuota(computed.disks, d);
        assert usage.disks[k] in usage.disks;
    } else {
      forall x | x in usage.disks ensures x.quota == ComputedQuota(computed.disks, x.device) {
        assert DiskDiff(x.device) !in diffs;
      }
      forall d ensures Stored(usage.volumes, d) == Stored(computed.volumes, d) {
        assert VolumeDiff(d) !in diffs;
      }
    }
  }
}
