/** Disk plans as lists of entries that are changed in place: no entry belongs to two plans. */
module DiskEntries {
  import opened Quantity
  import opened Options
  import opened Bindings
  import opened Disks
  import opened Charges
  import opened Passes
  import opened Evaluations
  import opened Planner
  import opened NormalPlans
  import opened VolumePlans
  import opened Assembly
  import opened Hosts
  import opened Monopoly
  import opened Soundness

  /** A disk of a plan; its quota and mounts change when other disks are added to it. */
  class DiskEntry {
    const device: string
    var mounts: seq<string>
    var quota: Quota

    constructor (d: Disk)
      ensures Value() == d
    {
      device := d.device;
      mounts := d.mounts;
      quota := d.quota;
    }

    function Value(): Disk
      reads this
    {
      Disk(device, mounts, quota)
    }
  }

  type DiskList = seq<DiskEntry>

  function Values(p: DiskList): (r: seq<Disk>)
    reads p
    ensures |r| == |p| && forall i :: 0 <= i < |p| ==> r[i] == p[i].Value()
  {
    seq(|p|, i requires 0 <= i < |p| reads p => p[i].Value())
  }

  /** No entry is listed twice. */
  ghost predicate Separate(p: DiskList) {
    forall i, j :: 0 <= i < j < |p| ==> p[i] != p[j]
  }

  /** No entry is listed twice, in one plan or in two. */
  ghost predicate Unshared(ps: seq<DiskList>) {
    && (forall i :: 0 <= i < |ps| ==> Separate(ps[i]))
    && (forall i, j, x :: 0 <= i < j < |ps| && x in ps[i] ==> x !in ps[j])
  }

  /** The entries of all plans. */
  ghost function Entries(ps: seq<DiskList>): (s: set<DiskEntry>)
    ensures forall i, x :: 0 <= i < |ps| && x in ps[i] ==> x in s
  {
    set i, x | 0 <= i < |ps| && x in ps[i] :: x
  }

  /** Disks.DeepCopy */
  method DeepCopy(p: DiskList) returns (c: DiskList)
    ensures Values(c) == Values(p) && Separate(c) && fresh(c)
  {
    c := [];
    for i := 0 to |p|
      invariant |c| == i && Separate(c) && fresh(c)
      invariant forall k :: 0 <= k < i ==> c[k].Value() == p[k].Value()
    {
      var copy := new DiskEntry(p[i].Value());
      c := c + [copy];
    }
  }

  /** What adding one more disk does to the bumped entries and to the missing ones. */
  lemma AddedNext(ds: seq<Disk>, vs: seq<Disk>, i: nat)
    requires i < |vs|
    ensures var bumped := BumpAll(ds, vs[..i]); var at := IndexOf(bumped, vs[i].device);
      && BumpAll(ds, vs[..i + 1]) == Bump(bumped, vs[i])
      && Missing(ds, vs[..i + 1]) == Missing(ds, vs[..i]) + (if at.Some? then [] else [vs[i]])
      && (at.None? ==> Bump(bumped, vs[i]) == bumped)
  {
    assert vs[..i + 1][..i] == vs[..i];
    SameIndex(ds, BumpAll(ds, vs[..i]), vs[i].device);
  }

  lemma ValuesAppend(p: DiskList, x: DiskEntry)
    ensures Values(p + [x]) == Values(p) + [x.Value()]
  {
  }

  lemma ValuesConcat(p: DiskList, q: DiskList)
    ensures Values(p + q) == Values(p) + Values(q)
  {
  }

  /** Disks.Add on entries: changes those of p, and appends copies of those that p does not have. */
  method Add(p: DiskList, xs: DiskList) returns (r: DiskList)
    requires Separate(p) && forall x :: x in xs ==> x !in p
    modifies p
    ensures Values(r) == Added(old(Values(p)), old(Values(xs))) && Separate(r)
    ensures r[..|p|] == p <= r && fresh(r[|p|..])
  {
    hide BumpAll, Missing, Bump, IndexOf, Values;
    ghost var ds, vs := Values(p), Values(xs);
    var toAppend: DiskList := [];
    NothingBumped(ds, vs);
    for i := 0 to |xs|
      invariant Values(p) == BumpAll(ds, vs[..i]) && Values(xs) == vs
      invariant Values(toAppend) == Missing(ds, vs[..i])
      invariant Separate(toAppend) && fresh(toAppend)
    {
      var d := xs[i].Value();
      AddedNext(ds, vs, i);
      var found := FindEntry(p, d.device);
      if found.Some? {
        BumpEntry(p, found.value, d, xs, toAppend);
      } else {
        var copy := new DiskEntry(d);
        ValuesAppend(toAppend, copy);
        toAppend := toAppend + [copy];
      }
    }
    assert vs[..|vs|] == vs;
    ValuesConcat(p, toAppend);
    r := p + toAppend;
  }

  lemma NothingBumped(ds: seq<Disk>, vs: seq<Disk>)
    ensures BumpAll(ds, vs[..0]) == ds && Missing(ds, vs[..0]) == []
  {
  }

  /** The first entry of a device. */
  method FindEntry(p: DiskList, device: string) returns (r: Option<nat>)
    ensures r == IndexOf(Values(p), device)
  {
    for i := 0 to |p|
      invariant forall k :: 0 <= k < i ==> p[k].device != device
    {
      if p[i].device == device {
        return Some(i);
      }
    }
    return None;
  }

  /** Bumps one entry and leaves all others alone, those of two other lists included. */
  method BumpEntry(p: DiskList, i: nat, d: Disk, ghost xs: DiskList, ghost ys: DiskList)
    requires Separate(p) && IndexOf(Values(p), d.device) == Some(i) && p[i] !in xs && p[i] !in ys
    modifies p[i]
    ensures Values(p) == Bump(old(Values(p)), d)
    ensures Values(xs) == old(Values(xs)) && Values(ys) == old(Values(ys))
  {
    var disk := p[i];
    disk.quota := disk.quota.Plus(d.quota);
    if |d.mounts| > 0 {
      disk.mounts := d.mounts;
    }
    assert forall k :: 0 <= k < |p| && k != i ==> p[k] != disk;
  }

  /** One request's quota added to a plan, on the disk that covers a device. */
  method Draw(h: Host, p: DiskList, e: Entry) returns (r: DiskList)
    requires h.CacheAgrees() && Separate(p)
    modifies h`diskByPath, p
    ensures h.CacheAgrees() && Values(r) == Accumulate(h.Top(), old(Values(p)), e) && Separate(r)
    ensures r[..|p|] == p <= r && fresh(r[|p|..])
  {
    hide Added, FindDisk, Values;
    r := p;
    var disk := h.GetDiskByPath(e.device);
    if e.binding.RequireIOPS() && disk.Some? {
      var slot := LayoutOf(h.disks)[disk.value];
      var quota := new DiskEntry(Disk(slot.device, slot.mounts, e.binding.quota));
      assert Values([quota]) == [quota.Value()];
      r := Add(p, [quota]);
    }
  }

  /** The disk plan of a list of charges, built up entry by entry. */
  method PlanOf(h: Host, es: seq<Entry>) returns (p: DiskList)
    requires h.CacheAgrees()
    modifies h`diskByPath
    ensures h.CacheAgrees() && Values(p) == DiskPlan(h.Top(), es) && Separate(p) && fresh(p)
  {
    hide Values, Accumulate, FindDisk;
    p := [];
    assert es[..0] == [];
    for i := 0 to |es|
      invariant h.CacheAgrees() && Values(p) == DiskPlan(h.Top(), es[..i]) && Separate(p) && fresh(p)
    {
      assert es[..i + 1][..i] == es[..i];
      var q := Draw(h, p, es[i]);
      assert q == p + q[|p|..];
      p := q;
    }
    assert es[..|es|] == es;
  }

  /** One more plan of new entries beside plans of entries that are not shared. */
  lemma UnsharedNext(ps: seq<DiskList>, p: DiskList)
    requires Unshared(ps) && Separate(p) && forall x :: x in p ==> x !in Entries(ps)
    ensures Unshared(ps + [p]) && Entries(ps + [p]) == Entries(ps) + set x | x in p
  {
    var qs := ps + [p];
    forall x ensures x in Entries(qs) <==> x in Entries(ps) || x in p {
      if x in p {
        assert qs[|ps|] == p;
      }
      if x in Entries(ps) {
        var i :| 0 <= i < |ps| && x in ps[i];
        assert qs[i] == ps[i];
      }
    }
  }

  /** getMountOnlyPlans: every plan has its own copy of the prototype. */
  method GetMountOnlyPlans(prototype: DiskList, capacity: nat) returns (ps: seq<DiskList>)
    ensures |ps| == capacity && Unshared(ps) && (forall x :: x in Entries(ps) ==> fresh(x))
    ensures forall k :: 0 <= k < capacity ==> Values(ps[k]) == Values(prototype)
  {
    ps := [];
    for i := 0 to capacity
      invariant |ps| == i && Unshared(ps) && (forall x :: x in Entries(ps) ==> fresh(x))
      invariant forall k :: 0 <= k < i ==> Values(ps[k]) == Values(prototype)
    {
      var p := DeepCopy(prototype);
      UnsharedNext(ps, p);
      ps := ps + [p];
    }
  }

  /** The plans have these values. */
  ghost predicate Have(ps: seq<DiskList>, vals: seq<seq<Disk>>)
    reads Entries(ps)
  {
    |ps| == |vals| && forall k :: 0 <= k < |ps| ==> Values(ps[k]) == vals[k]
  }

  /** Merging entry list i into plan i changes no other plan, and shares nothing. */
  method MergeInto(ps: seq<DiskList>, i: nat, xs: seq<DiskList>, ghost vals: seq<seq<Disk>>, ghost xvals: seq<seq<Disk>>)
      returns (qs: seq<DiskList>)
    requires Unshared(ps) && Entries(ps) !! Entries(xs) && i < |ps| && i < |xs| && Have(ps, vals) && Have(xs, xvals)
    modifies ps[i]
    ensures |qs| == |ps| && forall k :: 0 <= k < |ps| && k != i ==> qs[k] == ps[k]
    ensures Unshared(qs) && Entries(qs) !! Entries(xs) && fresh(Entries(qs) - Entries(ps))
    ensures Have(qs, vals[i := Added(vals[i], xvals[i])]) && Have(xs, xvals)
  {
    hide Added;
    forall x | x in ps[i] ensures x in Entries(ps) {
    }
    forall x | x in xs[i] ensures x in Entries(xs) {
    }
    var p := Add(ps[i], xs[i]);
    qs := ps[i := p];
    MergedUnshared(ps, i, p);
    forall k | 0 <= k < |ps| && k != i ensures Values(ps[k]) == vals[k] {
      forall m | 0 <= m < |ps[k]| ensures ps[k][m].Value() == vals[k][m] {
        assert ps[k][m] in ps[k] && ps[k][m] !in ps[i];
      }
    }
    forall k | 0 <= k < |xs| ensures Values(xs[k]) == xvals[k] {
      forall m | 0 <= m < |xs[k]| ensures xs[k][m].Value() == xvals[k][m] {
        assert xs[k][m] in xs[k] && xs[k][m] in Entries(xs) && xs[k][m] !in Entries(ps) && xs[k][m] !in ps[i];
      }
    }
  }

  /** A plan that grows by entries of no plan keeps the plans unshared. */
  lemma MergedUnshared(ps: seq<DiskList>, i: nat, p: DiskList)
    requires Unshared(ps) && i < |ps| && ps[i] <= p && Separate(p) && forall x :: x in p[|ps[i]|..] ==> x !in Entries(ps)
    ensures Unshared(ps[i := p]) && Entries(ps[i := p]) == Entries(ps) + set x | x in p[|ps[i]|..]
  {
    var qs := ps[i := p];
    GrownEntries(ps, qs, i);
    forall a, b, x | 0 <= a < b < |qs| && x in qs[a] ensures x !in qs[b] {
      if a == i {
        assert p == ps[i] + p[|ps[i]|..];
        assert x in ps[b] ==> x in Entries(ps);
      } else if b == i {
        assert p == ps[i] + p[|ps[i]|..];
        assert x in Entries(ps);
      }
    }
  }

  lemma GrownEntries(ps: seq<DiskList>, qs: seq<DiskList>, i: nat)
    requires i < |ps| == |qs| && ps[i] <= qs[i] && forall k :: 0 <= k < |ps| && k != i ==> qs[k] == ps[k]
    ensures Entries(qs) == Entries(ps) + set x | x in qs[i][|ps[i]|..]
  {
    assert qs[i] == ps[i] + qs[i][|ps[i]|..];
    forall x ensures x in Entries(qs) <==> x in Entries(ps) || x in qs[i][|ps[i]|..] {
      if x in Entries(qs) {
        var k :| 0 <= k < |qs| && x in qs[k];
        assert k != i ==> x in ps[k];
      }
      if x in Entries(ps) {
        var k :| 0 <= k < |ps| && x in ps[k];
        assert x in qs[k];
      }
      if x in qs[i][|ps[i]|..] {
        assert x in qs[i];
      }
    }
  }

  lemma FirstUnshared(ps: seq<DiskList>, n: nat)
    requires Unshared(ps) && n <= |ps|
    ensures Unshared(ps[..n]) && Entries(ps[..n]) <= Entries(ps)
  {
  }

  lemma FirstHave(ps: seq<DiskList>, vals: seq<seq<Disk>>, n: nat)
    requires Have(ps, vals) && n <= |ps|
    ensures |vals| == |ps| && Have(ps[..n], vals[..n])
  {
  }

  lemma PlanEntries(ps: seq<DiskList>, i: nat)
    requires i < |ps|
    ensures forall x :: x in ps[i] ==> x in Entries(ps)
  {
  }

  /** Every plan gets the entries of its monopoly group, in the loop of getVolumePlans. */
  method AssembleLists(normal: seq<DiskList>, mono: seq<DiskList>, count: nat, ghost vals: seq<seq<Disk>>, ghost xvals: seq<seq<Disk>>)
      returns (ps: seq<DiskList>)
    requires count <= |normal| && count <= |mono| && Unshared(normal) && Entries(normal) !! Entries(mono)
    requires Have(normal, vals) && Have(mono, xvals)
    modifies Entries(normal)
    ensures Unshared(ps) && fresh(Entries(ps) - Entries(normal))
    ensures Have(ps, seq(count, k requires 0 <= k < count => Added(vals[k], xvals[k])))
  {
    hide Added, Values, Unshared, Have;
    ps := normal[..count];
    FirstUnshared(normal, count);
    FirstHave(normal, vals, count);
    FirstHave(mono, xvals, count);
    ghost var now := vals[..count];
    for i := 0 to count
      invariant |ps| == |now| == count && Unshared(ps) && Entries(ps) !! Entries(mono) && fresh(Entries(ps) - Entries(normal))
      invariant Have(ps, now) && Have(mono, xvals)
      invariant forall k :: 0 <= k < count ==> now[k] == if k < i then Added(vals[k], xvals[k]) else vals[k]
    {
      PlanEntries(ps, i);
      ps := MergeInto(ps, i, mono, now, xvals);
      now := now[i := Added(now[i], xvals[i])];
    }
    assert now == seq(count, k requires 0 <= k < count => Added(vals[k], xvals[k]));
  }

  // ---- The plans of a host

  /** The disk plans of normal plans: nothing, the same draws as the mounts, or those of the volumes and the mounts. */
  ghost predicate NormalValues(l: Topology, c: RequestClasses, volumePlans: seq<VolumePlan>, vals: seq<seq<Disk>>) {
    && |volumePlans| == |vals| && (c.normal == [] ==> forall i :: 0 <= i < |volumePlans| ==> volumePlans[i] == [])
    && forall i :: 0 <= i < |vals| ==> vals[i] == Disks.Added(DiskPlan(l, volumePlans[i]), DiskPlan(l, MountEntries(c.mount)))
  }

  /** Empty plans, copies of a prototype, or a plan built up for each pass, as getNormalPlans chooses. */
  method NormalLists(h: Host, c: RequestClasses, volumePlans: seq<VolumePlan>, ghost vals: seq<seq<Disk>>) returns (ps: seq<DiskList>)
    requires h.CacheAgrees() && NormalValues(h.Top(), c, volumePlans, vals) && ValidAll(c.mount)
    modifies h`diskByPath
    ensures h.CacheAgrees() && Have(ps, vals) && Unshared(ps) && fresh(Entries(ps))
  {
    if c.normal == [] && !AnyRequireIOPS(c.mount) {
      EmptyValues(h.Top(), c, volumePlans, vals);
      return seq(|volumePlans|, i => []);
    }
    if c.normal == [] {
      MountValues(h.Top(), c, volumePlans, vals);
      var prototype := PlanOf(h, MountEntries(c.mount));
      ps := GetMountOnlyPlans(prototype, |volumePlans|);
      return;
    }
    ps := EnumerateLists(h, c.mount, volumePlans, vals);
  }

  method EnumerateLists(h: Host, mount: seq<VolumeBinding>, volumePlans: seq<VolumePlan>, ghost vals: seq<seq<Disk>>)
      returns (ps: seq<DiskList>)
    requires h.CacheAgrees() && |volumePlans| == |vals|
    requires forall i :: 0 <= i < |vals| ==> vals[i] == Disks.Added(DiskPlan(h.Top(), volumePlans[i]), DiskPlan(h.Top(), MountEntries(mount)))
    modifies h`diskByPath
    ensures h.CacheAgrees() && Have(ps, vals) && Unshared(ps) && fresh(Entries(ps))
  {
    hide DiskPlan, Disks.Added, Values, FindDisk;
    ps := [];
    for i := 0 to |volumePlans|
      invariant h.CacheAgrees() && Have(ps, vals[..i]) && Unshared(ps) && fresh(Entries(ps))
    {
      var p := OneList(h, volumePlans[i], mount);
      UnsharedNext(ps, p);
      HaveNext(ps, vals, i, p);
      ps := ps + [p];
    }
    assert vals[..|vals|] == vals;
  }

  lemma HaveNext(ps: seq<DiskList>, vals: seq<seq<Disk>>, i: nat, p: DiskList)
    requires i < |vals| && Have(ps, vals[..i]) && Values(p) == vals[i]
    ensures Have(ps + [p], vals[..i + 1])
  {
  }

  /** The entries of one pass: those of its volumes, with those of the mounts added. */
  method OneList(h: Host, volumePlan: VolumePlan, mount: seq<VolumeBinding>) returns (p: DiskList)
    requires h.CacheAgrees()
    modifies h`diskByPath
    ensures h.CacheAgrees() && Values(p) == Disks.Added(DiskPlan(h.Top(), volumePlan), DiskPlan(h.Top(), MountEntries(mount)))
    ensures Separate(p) && fresh(p)
  {
    hide DiskPlan, Disks.Added, Values;
    var diskPlan := PlanOf(h, volumePlan);
    var mountDiskPlan := PlanOf(h, MountEntries(mount));
    p := Add(diskPlan, mountDiskPlan);
    assert p == diskPlan + p[|diskPlan|..];
  }

  /** A new entry for the disk of every group that asks for quota. */
  method MonoLists(monoDisks: seq<seq<Disk>>) returns (ps: seq<DiskList>)
    ensures Have(ps, monoDisks) && Unshared(ps) && fresh(Entries(ps))
  {
    hide Values;
    ps := [];
    assert Have(ps, monoDisks[..0]);
    for i := 0 to |monoDisks|
      invariant Have(ps, monoDisks[..i]) && Unshared(ps) && fresh(Entries(ps))
    {
      var p := NewList(monoDisks[i]);
      UnsharedNext(ps, p);
      HaveNext(ps, monoDisks, i, p);
      ps := ps + [p];
    }
    assert monoDisks[..|monoDisks|] == monoDisks;
  }

  method NewList(ds: seq<Disk>) returns (p: DiskList)
    ensures Values(p) == ds && Separate(p) && fresh(p)
  {
    p := [];
    for i := 0 to |ds|
      invariant |p| == i && Separate(p) && fresh(p) && forall k :: 0 <= k < i ==> p[k].Value() == ds[k]
    {
      var entry := new DiskEntry(ds[i]);
      p := p + [entry];
    }
  }

  lemma EmptyValues(l: Topology, c: RequestClasses, volumePlans: seq<VolumePlan>, vals: seq<seq<Disk>>)
    requires NormalValues(l, c, volumePlans, vals) && c.normal == [] && !AnyRequireIOPS(c.mount) && ValidAll(c.mount)
    ensures forall i :: 0 <= i < |vals| ==> vals[i] == []
  {
    MountEntriesFree(l, c.mount);
    FreeDiskPlan(l, MountEntries(c.mount));
  }

  lemma MountValues(l: Topology, c: RequestClasses, volumePlans: seq<VolumePlan>, vals: seq<seq<Disk>>)
    requires NormalValues(l, c, volumePlans, vals) && c.normal == []
    ensures forall i :: 0 <= i < |vals| ==> vals[i] == DiskPlan(l, MountEntries(c.mount))
  {
    NothingAdded(DiskPlan(l, MountEntries(c.mount)));
  }

  /** What the evaluation of an outcome gives for the disk plans. */
  lemma OutcomeValues(l: Topology, share: Share, o: Outcome, q: Query, r: Evaluated)
    requires q.mode.Planning? && EvaluatedAs(l, share, o.eval, q, r)
    ensures NormalValues(l, q.classes, r.normalVolumes, r.normalDisks)
  {
  }

  /** The disk plans of the plans of an outcome are those of the normal plans with those of the groups added. */
  lemma OutcomeLists(l: Topology, share: Share, o: Outcome, q: Query, r: Evaluated, plans: seq<Deployment>)
    requires WellShaped(o, q) && q.mode.Planning? && EvaluatedAs(l, share, o.eval, q, r) && plans == Plans(l, share, o, q)
    requires Unlike(q.classes.normal + q.classes.mono + q.classes.unlimited)
    ensures |plans| <= |r.normalDisks| && |plans| <= |r.monoDisks|
    ensures forall k :: 0 <= k < |plans| ==> plans[k].disks == Disks.Added(r.normalDisks[k], r.monoDisks[k])
  {
    forall k | 0 <= k < |plans|
      ensures k < |r.normalDisks| && k < |r.monoDisks| && plans[k].disks == Disks.Added(r.normalDisks[k], r.monoDisks[k])
    {
      PartsMake(l, share, o, q, r, k);
    }
    if |plans| > 0 {
      PartsMake(l, share, o, q, r, |plans| - 1);
    }
  }

  /** The disk plans of an evaluation, assembled from entries that no two plans share. */
  method ListsOf(h: Host, ghost o: Outcome, ghost q: Query, c: RequestClasses, r: Evaluated, plans: seq<Deployment>)
      returns (lists: seq<DiskList>)
    requires h.CacheAgrees() && WellShaped(o, q) && q.mode.Planning? && q.classes == c && EvaluatedAs(h.Top(), h.share, o.eval, q, r)
    requires ValidAll(c.mount) && Unlike(c.normal + c.mono + c.unlimited) && plans == Plans(h.Top(), h.share, o, q)
    modifies h`diskByPath
    ensures h.CacheAgrees() && Have(lists, DisksOf(plans)) && Unshared(lists) && fresh(Entries(lists))
  {
    OutcomeValues(h.Top(), h.share, o, q, r);
    OutcomeLists(h.Top(), h.share, o, q, r, plans);
    hide *;
    var normal := NormalLists(h, c, r.normalVolumes, r.normalDisks);
    var mono := MonoLists(r.monoDisks);
    ListLengths(normal, r.normalDisks);
    ListLengths(mono, r.monoDisks);
    lists := AssembleLists(normal, mono, |plans|, r.normalDisks, r.monoDisks);
    DisksAssembled(plans, r.normalDisks, r.monoDisks);
  }

  function DisksOf(plans: seq<Deployment>): (r: seq<seq<Disk>>)
    ensures |r| == |plans|
  {
    seq(|plans|, k requires 0 <= k < |plans| => plans[k].disks)
  }

  lemma DisksAssembled(plans: seq<Deployment>, vals: seq<seq<Disk>>, xvals: seq<seq<Disk>>)
    requires |plans| <= |vals| && |plans| <= |xvals|
    requires forall k :: 0 <= k < |plans| ==> plans[k].disks == Disks.Added(vals[k], xvals[k])
    ensures DisksOf(plans) == seq(|plans|, k requires 0 <= k < |plans| => Disks.Added(vals[k], xvals[k]))
  {
  }

  lemma ListLengths(ps: seq<DiskList>, vals: seq<seq<Disk>>)
    requires Have(ps, vals)
    ensures |ps| == |vals|
  {
  }

  /** getVolumePlans with its disk plans as entries: the specified plans, and no entry in two of them. */
  method GetVolumePlanDisks(h: Host, requests: seq<VolumeBinding>) returns (plans: seq<Deployment>, lists: seq<DiskList>)
    requires h.Valid() && h.Within64() && |h.unusedVolumes| < MAX_INT && ValidRequests(requests)
    modifies h
    ensures plans == Schedule(h.Top(), h.share, old(h.Now()), requests, h.maxDeployCount, Planning)
    ensures Have(lists, DisksOf(plans)) && Unshared(lists) && fresh(Entries(lists))
  {
    if !NeedSchedule(requests) {
      return seq(h.maxDeployCount, i => Deployment([], [])), seq(h.maxDeployCount, i => []);
    }
    var c := ClassifyVolumeBindings(requests);
    ClassifyValid(requests);
    ClassesUnlike(requests);
    if |c.normal| + |c.mono| + |c.unlimited| > 0 && |h.unusedVolumes| + h.usedVolumes.Length == 0 {
      return [], [];
    }
    plans, lists := ClassLists(h, c);
  }

  /** The plans for request classes that need volumes or quota, with their disk plans as entries. */
  method ClassLists(h: Host, c: RequestClasses) returns (plans: seq<Deployment>, lists: seq<DiskList>)
    requires h.Valid() && h.Within64() && |h.unusedVolumes| < MAX_INT && ValidClasses(c) && Unlike(c.normal + c.mono + c.unlimited)
    requires !NoVolumes(h.Now(), c)
    modifies h
    ensures h.disks == old(h.disks)
    ensures var q := Query(c, h.maxDeployCount, Planning, NormalBound(c, h.maxDeployCount, |old(h.unusedVolumes)|));
      plans == Plans(h.Top(), h.share, Planner.Promote(h.Top(), h.share, old(h.Now()), q), q)
    ensures Have(lists, DisksOf(plans)) && Unshared(lists) && fresh(Entries(lists))
  {
    hide Planner.Promote, Planner.Evaluate, EvaluatedAs, Good, Unlike, WellShaped, PinnedPlans, AllOnHost, Plans;
    ghost var p := h.Now();
    var bound := h.NormalBoundOf(c);
    var r := h.Promote(c, bound, Planning);
    ghost var q := Query(c, h.maxDeployCount, Planning, bound);
    ghost var o := Outcome(h.Now(), Planner.Evaluate(h.Top(), h.share, h.Now(), q));
    var best := Min(Min(r.normalCapacity, r.monoCapacity), h.maxDeployCount);
    Ready(h.Top(), h.share, p, o, q, r, best);
    assert best == PlanCount(o, q) && ValidAll(c.mount);
    hide *;
    var unlimited := h.GetUnlimitedPlans(r.normalVolumes, r.monoVolumes, c.unlimited, best);
    plans, lists := [], [];
    if unlimited.Err? {
      assert false;
    } else {
      plans := h.Assemble(o, q, r, unlimited.value, best);
      lists := ListsOf(h, o, q, c, r, plans);
    }
  }
}
