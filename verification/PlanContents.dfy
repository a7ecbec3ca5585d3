/** What each returned plan contains, who gets a whole volume, and what promotion moves. */
module PlanContents {
  import opened Quantity
  import opened Bindings
  import opened Disks
  import opened Volumes
  import opened Charges
  import opened Repetition
  import opened Passes
  import opened Monopoly
  import opened Planner
  import opened Evaluations
  import opened Soundness

  // ---- Completeness of one plan

  ghost predicate OnHost(p: Pool, device: string) {
    Listed(p.used, device) || Listed(p.unused, device)
  }

  /** Entries of reqs, in order, each with its own size on a device of the host. */
  ghost predicate Places(es: seq<Entry>, reqs: seq<VolumeBinding>, p: Pool) {
    |es| == |reqs| && forall k :: 0 <= k < |es| ==> es[k].binding == reqs[k] && es[k].size == reqs[k].size && OnHost(p, es[k].device)
  }

  /** A disk plan names no disk that the host does not have. */
  ghost predicate OffSlots(l: Topology, disks: seq<Disk>) {
    forall device, m :: NoSlot(l, device) ==> TotalQuota(disks, device, m) == 0
  }

  ghost predicate NoSlot(l: Topology, device: string) {
    forall j :: 0 <= j < |l.slots| ==> l.slots[j].device != device
  }

  /** Disk plans name no disk that the node does not have. */
  lemma {:induction false} DiskPlanOff(l: Topology, es: seq<Entry>, device: string, m: Meter)
    requires NoSlot(l, device)
    ensures TotalQuota(DiskPlan(l, es), device, m) == 0
  {
    if es != [] {
      var n := |es| - 1;
      DiskPlanOff(l, es[..n], device, m);
      if l.Disk(es[n].device).Some? {
        var slot := l.slots[l.Disk(es[n].device).value];
        var x := [Disk(slot.device, slot.mounts, es[n].binding.quota)];
        AddedTotal(DiskPlan(l, es[..n]), x, device, m);
        TotalQuotaAbsent(x, device, m);
      }
    }
  }

  lemma MonoDisksOff(l: Topology, reqs: seq<VolumeBinding>, v: Volume, device: string, m: Meter)
    requires NoSlot(l, device)
    ensures TotalQuota(MonoDisks(l, reqs, v), device, m) == 0
  {
    TotalQuotaAbsent(MonoDisks(l, reqs, v), device, m);
  }

  lemma PlanOff(l: Topology, share: Share, o: Outcome, q: Query, i: nat, device: string, m: Meter)
    requires NoSlot(l, device) && i < PlanCount(o, q)
    ensures TotalQuota(PlanAt(l, share, o, q, i).disks, device, m) == 0
  {
    var normal := DiskPlan(l, NormalPart(o.eval.normal.plans[i], q.classes));
    var mount := DiskPlan(l, MountEntries(q.classes.mount));
    var mono := if q.classes.mono == [] then [] else MonoDisks(l, q.classes.mono, o.eval.taken[i]);
    DiskPlanOff(l, NormalPart(o.eval.normal.plans[i], q.classes), device, m);
    DiskPlanOff(l, MountEntries(q.classes.mount), device, m);
    if q.classes.mono != [] {
      MonoDisksOff(l, q.classes.mono, o.eval.taken[i], device, m);
    }
    AddedTotal(normal, mount, device, m);
    AddedTotal(Added(normal, mount), mono, device, m);
  }

  /** A plan places every normal, monopoly and unlimited request once, and its disk plan holds exactly what it and the mounts draw. */
  ghost predicate Complete(l: Topology, share: Share, p: Pool, c: RequestClasses, d: Deployment, v: Volume) {
    && |d.volumes| == |c.normal| + |c.mono| + |c.unlimited|
    && Places(d.volumes[..|c.normal|], c.normal, p)
    && (c.mono != [] ==> v in p.unused && TotalSize(c.mono) <= v.size)
    && d.volumes[|c.normal|..|c.normal| + |c.mono|] == MonoGroup(share, c.mono, v)
    && Places(d.volumes[|c.normal| + |c.mono|..], c.unlimited, p)
    && (forall j, m :: 0 <= j < |l.slots| ==>
          TotalQuota(d.disks, l.slots[j].device, m) == QuotaOn(l, d.volumes + MountEntries(c.mount), j, m))
    && UniqueDevices(d.disks) && OffSlots(l, d.disks)
  }

  lemma {:induction false} PromoteUnused(l: Topology, share: Share, p: Pool, q: Query)
    ensures var o := Promote(l, share, p, q);
      && (forall v :: v in o.pool.unused ==> v in p.unused)
      && (forall v :: v in o.pool.used ==> v in p.used || v in p.unused)
    decreases |p.unused|
  {
    var k := Candidate(p, q.classes);
    if Wanting(Evaluate(l, share, p, q), q) && k < |p.unused| {
      var m := Move(p, k);
      assert forall v :: v in m.unused ==> v in p.unused;
      assert forall v :: v in m.used ==> v in p.used || v in p.unused;
      hide Evaluate;
      PromoteUnused(l, share, m, q);
    }
  }

  lemma ListedMore(vs: seq<Volume>, p: Pool, device: string)
    requires (forall v :: v in vs ==> v in p.used || v in p.unused) && Listed(vs, device)
    ensures OnHost(p, device)
  {
  }

  lemma UnlimitedPlaced(share: Share, o: Outcome, q: Query, p: Pool)
    requires q.classes.unlimited != [] ==> o.pool.used + o.pool.unused != []
    requires forall v :: v in o.pool.used || v in o.pool.unused ==> v in p.used || v in p.unused
    requires q.classes.unlimited != []
    ensures Places(UnlimitedEntries(q.classes.unlimited, Pinned(share, o, q)), q.classes.unlimited, p)
  {
    var vs := o.pool.used + o.pool.unused;
    var es := Flat(o.eval.normal.plans) + Flat(Groups(share, q.classes.mono, o.eval.taken));
    var w := FirstLargest(DebitVolumes(vs, es));
    assert Listed(DebitVolumes(vs, es), w.device);
    DebitListed(vs, es, w.device);
    ListedMore(vs, p, w.device);
  }

  /** The volume of the group of plan i. */
  function GroupVolume(o: Outcome, c: RequestClasses, i: nat): Volume
    requires c.mono != [] ==> i < |o.eval.taken|
  {
    if c.mono == [] then Volume("", 0) else o.eval.taken[i]
  }

  /** The entries of the unlimited requests, all pinned to the same volume; the same in every plan. */
  function UnlimitedPart(share: Share, o: Outcome, q: Query): seq<Entry> {
    if q.classes.unlimited == [] then [] else UnlimitedEntries(q.classes.unlimited, Pinned(share, o, q))
  }

  /** What plans of an outcome of promotion from p rely on. */
  ghost predicate Settled(p: Pool, o: Outcome, q: Query) {
    && WellShaped(o, q)
    && (forall v :: v in o.pool.used || v in o.pool.unused ==> v in p.used || v in p.unused)
    && (forall v :: v in o.eval.taken ==> v in p.unused && TotalSize(q.classes.mono) <= v.size)
    && (q.classes.unlimited != [] ==> o.pool.used + o.pool.unused != [])
  }

  lemma OutcomeSettled(l: Topology, share: Share, p: Pool, q: Query)
    requires Good(l, p) && ValidClasses(q.classes) && !NoVolumes(p, q.classes)
    ensures Settled(p, Promote(l, share, p, q), q)
  {
    var o := Promote(l, share, p, q);
    PromoteShape(l, share, p, q);
    PromoteUnused(l, share, p, q);
    PromoteGood(l, share, p, q);
    EvaluationShape(l, share, o.pool, q);
    TakenAreUnused(l, share, o.pool, q);
    assert q.classes.unlimited != [] ==> |o.pool.used + o.pool.unused| > 0;
  }

  lemma PlanPlaces(share: Share, p: Pool, o: Outcome, q: Query, i: nat)
    requires Settled(p, o, q) && i < PlanCount(o, q)
    ensures Places(NormalPart(Drawn(o, i), q.classes), q.classes.normal, p)
    ensures Places(UnlimitedPart(share, o, q), q.classes.unlimited, p)
    ensures NormalPart(Drawn(o, i), q.classes) + MountEntries(q.classes.mount) == Drawn(o, i)
  {
    var c := q.classes;
    assert WellMade(Drawn(o, i), c, o.pool.used);
    var n := NormalPart(Drawn(o, i), c);
    assert Drawn(o, i) == n + MountEntries(c.mount);
    forall k | 0 <= k < |n| ensures OnHost(p, n[k].device) {
      ListedMore(o.pool.used, p, n[k].device);
    }
    if c.unlimited != [] {
      UnlimitedPlaced(share, o, q, p);
    }
  }

  lemma PlanHolds(l: Topology, share: Share, p: Pool, o: Outcome, q: Query, i: nat, j: nat, m: Meter)
    requires Settled(p, o, q) && i < PlanCount(o, q) && UniqueSlots(l.slots) && j < |l.slots|
    ensures var d := PlanAt(l, share, o, q, i);
      TotalQuota(d.disks, l.slots[j].device, m) == QuotaOn(l, d.volumes + MountEntries(q.classes.mount), j, m)
  {
    var c := q.classes;
    assert WellMade(Drawn(o, i), c, o.pool.used);
    PlanPlaces(share, p, o, q, i);
    PlanQuota(l, share, o, q, i, j, m);
    UnlimitedFree(share, o, q);
    PlanDraws(l, NormalPart(Drawn(o, i), c), GroupOf(share, o, q, i), UnlimitedPart(share, o, q), MountEntries(c.mount), j, m);
  }

  lemma UnlimitedFree(share: Share, o: Outcome, q: Query)
    requires ValidClasses(q.classes)
    ensures Free(UnlimitedPart(share, o, q))
  {
    var u := UnlimitedPart(share, o, q);
    forall e | e in u ensures e.binding.quota.NonNegative() && !e.binding.RequireIOPS() {
      var k :| 0 <= k < |u| && u[k] == e;
      assert q.classes.unlimited[k] in q.classes.unlimited;
    }
  }

  lemma PlanComplete(l: Topology, share: Share, p: Pool, q: Query, i: nat)
    requires Good(l, p) && ValidClasses(q.classes) && UniqueSlots(l.slots) && !NoVolumes(p, q.classes)
    requires i < PlanCount(Promote(l, share, p, q), q)
    ensures var o := Promote(l, share, p, q);
      Complete(l, share, p, q.classes, PlanAt(l, share, o, q, i), GroupVolume(o, q.classes, i))
  {
    OutcomeSettled(l, share, p, q);
    SettledComplete(l, share, p, Promote(l, share, p, q), q, i);
  }

  lemma SettledComplete(l: Topology, share: Share, p: Pool, o: Outcome, q: Query, i: nat)
    requires Settled(p, o, q) && i < PlanCount(o, q) && UniqueSlots(l.slots)
    ensures Complete(l, share, p, q.classes, PlanAt(l, share, o, q, i), GroupVolume(o, q.classes, i))
  {
    var c := q.classes;
    var d, v := PlanAt(l, share, o, q, i), GroupVolume(o, c, i);
    var n, g, u := NormalPart(Drawn(o, i), c), GroupOf(share, o, q, i), UnlimitedPart(share, o, q);
    PlanPlaces(share, p, o, q, i);
    assert WellMade(Drawn(o, i), c, o.pool.used);
    assert d.volumes == n + g + u && g == MonoGroup(share, c.mono, v);
    assert c.mono != [] ==> o.eval.taken[i] in o.eval.taken;
    forall j, m | 0 <= j < |l.slots|
      ensures TotalQuota(d.disks, l.slots[j].device, m) == QuotaOn(l, d.volumes + MountEntries(c.mount), j, m)
    {
      PlanHolds(l, share, p, o, q, i, j, m);
    }
    UniquePlanDisks(l, share, o, q, i);
    forall device, m | NoSlot(l, device) ensures TotalQuota(d.disks, device, m) == 0 {
      PlanOff(l, share, o, q, i, device, m);
    }
    hide Settled, PlanAt, NormalPart, GroupOf, UnlimitedPart, WellMade, PlanCount, MonoGroup, Places, UniqueSlots;
    PartsComplete(l, share, p, c, d, v, n, g, u);
  }

  lemma PartsComplete(l: Topology, share: Share, p: Pool, c: RequestClasses, d: Deployment, v: Volume, n: VolumePlan,
      g: VolumePlan, u: VolumePlan)
    requires d.volumes == n + g + u && g == MonoGroup(share, c.mono, v)
    requires Places(n, c.normal, p) && Places(u, c.unlimited, p) && (c.mono != [] ==> v in p.unused && TotalSize(c.mono) <= v.size)
    requires forall j, m :: 0 <= j < |l.slots| ==>
      TotalQuota(d.disks, l.slots[j].device, m) == QuotaOn(l, d.volumes + MountEntries(c.mount), j, m)
    requires UniqueDevices(d.disks) && OffSlots(l, d.disks)
    ensures Complete(l, share, p, c, d, v)
  {
    assert d.volumes[..|n|] == n && d.volumes[|n|..|n| + |g|] == g && d.volumes[|n| + |g|..] == u;
  }

  lemma PlanDraws(l: Topology, n: seq<Entry>, g: seq<Entry>, u: seq<Entry>, t: seq<Entry>, j: nat, m: Meter)
    requires Free(u)
    ensures QuotaOn(l, n + g + u + t, j, m) == QuotaOn(l, n + t, j, m) + QuotaOn(l, g, j, m)
  {
    QuotaConcat(l, n + g + u, t, j, m);
    QuotaConcat(l, n + g, u, j, m);
    QuotaConcat(l, n, g, j, m);
    QuotaConcat(l, n, t, j, m);
    FreeEntries(l, u, j, m);
  }

  lemma UniquePlanDisks(l: Topology, share: Share, o: Outcome, q: Query, i: nat)
    requires i < PlanCount(o, q) && ValidClasses(q.classes) && WellMade(Drawn(o, i), q.classes, o.pool.used) && UniqueSlots(l.slots)
    ensures UniqueDevices(PlanAt(l, share, o, q, i).disks)
  {
    if |l.slots| > 0 {
      PlanQuota(l, share, o, q, i, 0, ReadIOPS);
    } else {
      NoDiskPlan(l, NormalPart(Drawn(o, i), q.classes));
      NoDiskPlan(l, MountEntries(q.classes.mount));
    }
  }

  lemma {:induction false} NoDiskPlan(l: Topology, es: seq<Entry>)
    requires l.slots == []
    ensures DiskPlan(l, es) == []
  {
    if es != [] {
      NoDiskPlan(l, es[..|es| - 1]);
    }
  }

  lemma ScheduleIsPromoted(l: Topology, share: Share, p: Pool, reqs: seq<VolumeBinding>, maxCount: nat, mode: Mode)
    requires NeedSchedule(reqs) && !NoVolumes(p, Classify(reqs))
    ensures var q := QueryFor(p, reqs, maxCount, mode); var o := Promote(l, share, p, q);
      && Schedule(l, share, p, reqs, maxCount, mode) == Plans(l, share, o, q)
      && |Schedule(l, share, p, reqs, maxCount, mode)| == PlanCount(o, q)
  {
  }

  /** Every returned plan is complete; its group, when there is one, has a whole unused volume. */
  lemma PlansComplete(l: Topology, share: Share, p: Pool, reqs: seq<VolumeBinding>, maxCount: nat, mode: Mode, i: nat) returns (v: Volume)
    requires Good(l, p) && ValidRequests(reqs) && UniqueSlots(l.slots) && NeedSchedule(reqs)
    requires i < |Schedule(l, share, p, reqs, maxCount, mode)|
    ensures Complete(l, share, p, Classify(reqs), Schedule(l, share, p, reqs, maxCount, mode)[i], v)
  {
    ClassifyValid(reqs);
    var q := QueryFor(p, reqs, maxCount, mode);
    ScheduleIsPromoted(l, share, p, reqs, maxCount, mode);
    PlanComplete(l, share, p, q, i);
    v := GroupVolume(Promote(l, share, p, q), q.classes, i);
  }

  // ---- Monopoly exclusivity

  /** Group i owns volume vs[i]: it takes exactly the whole of it, and nothing else in any plan takes a byte of it. */
  ghost predicate OwnsVolume(share: Share, c: RequestClasses, ds: seq<Deployment>, vs: seq<Volume>, i: nat)
    requires i < |ds| == |vs| && forall d :: d in ds ==> |d.volumes| >= |c.normal| + |c.mono|
  {
    && ds[i].volumes[|c.normal|..|c.normal| + |c.mono|] == MonoGroup(share, c.mono, vs[i])
    && BytesOn(ds[i].volumes, vs[i].device) == vs[i].size
    && PlansBytes(ds, vs[i].device) == vs[i].size
    && forall k, x :: 0 <= k < |ds| && x in ds[k].volumes[..|c.normal|] ==> x.device != vs[i].device
  }

  /** The volumes vs were unused, are distinct, are large enough, and each is owned by the group of its plan. */
  ghost predicate Exclusive(share: Share, p: Pool, c: RequestClasses, ds: seq<Deployment>, vs: seq<Volume>) {
    && |vs| == |ds| && Distinct(vs)
    && (forall v :: v in vs ==> v in p.unused && TotalSize(c.mono) <= v.size)
    && (forall d :: d in ds ==> |d.volumes| >= |c.normal| + |c.mono|)
    && (forall i :: 0 <= i < |ds| ==> OwnsVolume(share, c, ds, vs, i))
  }

  /** The groups of different plans sit on different volumes, all unused before, each split exactly among its group. */
  lemma MonopolyExclusive(l: Topology, share: Share, p: Pool, reqs: seq<VolumeBinding>, maxCount: nat, mode: Mode) returns (vs: seq<Volume>)
    requires Good(l, p) && ValidRequests(reqs) && UniqueSlots(l.slots) && Classify(reqs).mono != []
    ensures Exclusive(share, p, Classify(reqs), Schedule(l, share, p, reqs, maxCount, mode), vs)
  {
    MonoNeedsSchedule(reqs);
    ClassifyValid(reqs);
    if NoVolumes(p, Classify(reqs)) {
      vs := [];
      return;
    }
    ScheduleIsPromoted(l, share, p, reqs, maxCount, mode);
    var q := QueryFor(p, reqs, maxCount, mode);
    vs := PromotedExclusive(l, share, p, q);
  }

  lemma PromotedExclusive(l: Topology, share: Share, p: Pool, q: Query) returns (vs: seq<Volume>)
    requires Good(l, p) && ValidClasses(q.classes) && UniqueSlots(l.slots) && q.classes.mono != [] && !NoVolumes(p, q.classes)
    ensures Exclusive(share, p, q.classes, Plans(l, share, Promote(l, share, p, q), q), vs)
  {
    var o := Promote(l, share, p, q);
    OutcomeSettled(l, share, p, q);
    PromoteGood(l, share, p, q);
    PromoteShape(l, share, p, q);
    TakenAreUnused(l, share, o.pool, q);
    vs := o.eval.taken[..PlanCount(o, q)];
    SettledExclusive(l, share, p, o, q);
  }

  lemma SettledExclusive(l: Topology, share: Share, p: Pool, o: Outcome, q: Query)
    requires Settled(p, o, q) && UniqueSlots(l.slots) && q.classes.mono != []
    requires Distinct(o.eval.taken) && Disjoint(o.pool.used, o.pool.unused) && forall v :: v in o.eval.taken ==> v in o.pool.unused
    ensures Exclusive(share, p, q.classes, Plans(l, share, o, q), o.eval.taken[..PlanCount(o, q)])
  {
    var ds, vs := Plans(l, share, o, q), o.eval.taken[..PlanCount(o, q)];
    forall i, j | 0 <= i < j < |vs| ensures Apart(vs[i], vs[j]) {
      assert Apart(o.eval.taken[i], o.eval.taken[j]);
    }
    forall v | v in vs ensures v in p.unused && TotalSize(q.classes.mono) <= v.size {
      assert v in o.eval.taken;
    }
    LongPlans(l, share, p, o, q);
    forall i | 0 <= i < |ds| ensures OwnsVolume(share, q.classes, ds, vs, i) {
      assert o.eval.taken[i] in o.eval.taken;
      hide Settled, Disjoint, Distinct, OwnsVolume;
      SettledOwns(l, share, p, o, q, i);
    }
  }

  lemma LongPlans(l: Topology, share: Share, p: Pool, o: Outcome, q: Query)
    requires Settled(p, o, q) && UniqueSlots(l.slots)
    ensures forall d :: d in Plans(l, share, o, q) ==> |d.volumes| >= |q.classes.normal| + |q.classes.mono|
  {
    var ds := Plans(l, share, o, q);
    forall d | d in ds ensures |d.volumes| >= |q.classes.normal| + |q.classes.mono| {
      var i :| 0 <= i < |ds| && ds[i] == d;
      SettledComplete(l, share, p, o, q, i);
    }
  }

  lemma MonoNeedsSchedule(reqs: seq<VolumeBinding>)
    requires Classify(reqs).mono != []
    ensures NeedSchedule(reqs)
  {
    SortBySizeSorts(OfKind(reqs, Mono));
    var b := Classify(reqs).mono[0];
    assert b in Classify(reqs).mono && b in OfKind(reqs, Mono);
  }

  lemma SettledOwns(l: Topology, share: Share, p: Pool, o: Outcome, q: Query, i: nat)
    requires Settled(p, o, q) && i < PlanCount(o, q) && UniqueSlots(l.slots) && q.classes.mono != []
    requires Distinct(o.eval.taken) && Disjoint(o.pool.used, o.pool.unused) && o.eval.taken[i] in o.pool.unused
    requires forall d :: d in Plans(l, share, o, q) ==> |d.volumes| >= |q.classes.normal| + |q.classes.mono|
    ensures OwnsVolume(share, q.classes, Plans(l, share, o, q), o.eval.taken[..PlanCount(o, q)], i)
  {
    var c := q.classes;
    var ds := Plans(l, share, o, q);
    var v := o.eval.taken[i];
    NotOnUsed(o.pool, v);
    SettledComplete(l, share, p, o, q, i);
    assert ds[i] == PlanAt(l, share, o, q, i) && GroupVolume(o, c, i) == v;
    forall k, x | 0 <= k < |ds| && x in ds[k].volumes[..|c.normal|] ensures x.device != v.device {
      assert ds[k] == PlanAt(l, share, o, q, k);
      NormalOffVolume(l, share, p, o, q, k, x, v);
    }
    OwnGroupBytes(l, share, o, q, i);
    OwnedBytes(l, share, o, q, v, i);
  }

  lemma OwnGroupBytes(l: Topology, share: Share, o: Outcome, q: Query, i: nat)
    requires WellShaped(o, q) && i < PlanCount(o, q) && q.classes.mono != [] && !Listed(o.pool.used, o.eval.taken[i].device)
    ensures BytesOn(PlanAt(l, share, o, q, i).volumes, o.eval.taken[i].device) == o.eval.taken[i].size
  {
    var v := o.eval.taken[i];
    WellMadeOff(o, q, i, v);
    PlanBytes(l, share, o, q, i, v.device);
    GroupBytes(share, q.classes.mono, v, v.device);
  }

  lemma NotOnUsed(p: Pool, v: Volume)
    requires Disjoint(p.used, p.unused) && v in p.unused
    ensures !Listed(p.used, v.device)
  {
    forall w | w in p.used ensures w.device != v.device {
      assert Apart(w, v);
    }
  }

  lemma WellMadeOff(o: Outcome, q: Query, k: nat, v: Volume)
    requires WellShaped(o, q) && k < |o.eval.normal.plans| && !Listed(o.pool.used, v.device)
    ensures WellMade(Drawn(o, k), q.classes, o.pool.used) && BytesOn(Drawn(o, k), v.device) == 0
  {
    WellMadeCharges(Drawn(o, k), q.classes, o.pool.used);
  }

  lemma NormalOffVolume(l: Topology, share: Share, p: Pool, o: Outcome, q: Query, k: nat, x: Entry, v: Volume)
    requires Settled(p, o, q) && k < PlanCount(o, q) && UniqueSlots(l.slots) && !Listed(o.pool.used, v.device)
    requires |PlanAt(l, share, o, q, k).volumes| >= |q.classes.normal| && x in PlanAt(l, share, o, q, k).volumes[..|q.classes.normal|]
    ensures x.device != v.device
  {
    assert WellMade(Drawn(o, k), q.classes, o.pool.used);
    var n := NormalPart(Drawn(o, k), q.classes);
    assert PlanAt(l, share, o, q, k).volumes == n + GroupOf(share, o, q, k) + UnlimitedPart(share, o, q);
    InFront(n, GroupOf(share, o, q, k), UnlimitedPart(share, o, q), x);
  }

  lemma InFront(n: VolumePlan, g: VolumePlan, u: VolumePlan, x: Entry)
    ensures x in (n + g + u)[..|n|] ==> x in n
  {
    assert (n + g + u)[..|n|] == n;
  }

  /** Of all plans only plan i takes bytes of its group's volume. */
  lemma OwnedBytes(l: Topology, share: Share, o: Outcome, q: Query, v: Volume, i: nat)
    requires WellShaped(o, q) && q.classes.mono != [] && Distinct(o.eval.taken) && !Listed(o.pool.used, v.device)
    requires i < PlanCount(o, q) && o.eval.taken[i] == v
    ensures PlansBytes(Plans(l, share, o, q), v.device) == v.size
  {
    var ds := Plans(l, share, o, q);
    var k := PlanCount(o, q);
    assert ds[..k] == ds;
    FirstPlansBytes(l, share, o, q, k, v.device);
    forall plan | plan in o.eval.normal.plans[..k] ensures BytesOn(plan, v.device) == 0 {
      var a :| 0 <= a < k && o.eval.normal.plans[a] == plan;
      WellMadeOff(o, q, a, v);
    }
    FlatNoBytes(o.eval.normal.plans[..k], v.device);
    var vs := o.eval.taken[..k];
    forall a, b | 0 <= a < b < |vs| ensures Apart(vs[a], vs[b]) {
      assert Apart(o.eval.taken[a], o.eval.taken[b]);
    }
    GroupsBytes(share, q.classes.mono, vs, v.device);
    assert vs[i] in vs;
  }

  // ---- Promotion

  /** k is the first volume at least as large as target. */
  ghost predicate FirstFrom(vs: seq<Volume>, target: int, k: nat) {
    k <= |vs| && (forall i :: 0 <= i < k ==> vs[i].size < target) && (forall i :: k <= i < |vs| ==> vs[i].size >= target)
  }

  lemma {:induction false} SearchSorted(vs: seq<Volume>, target: int, lo: nat, hi: nat)
    requires lo <= hi <= |vs| && Sorted(vs)
    requires (forall i :: 0 <= i < lo ==> vs[i].size < target) && (forall i :: hi <= i < |vs| ==> vs[i].size >= target)
    ensures FirstFrom(vs, target, Search(vs, target, lo, hi))
    decreases hi - lo
  {
    if lo < hi {
      var mid := (lo + hi) / 2;
      forall i | 0 <= i < |vs| ensures (i < mid ==> vs[i].size <= vs[mid].size) && (mid < i ==> vs[mid].size <= vs[i].size) {
        assert i < mid ==> Leq(vs[i], vs[mid]);
        assert mid < i ==> Leq(vs[mid], vs[i]);
      }
      if vs[mid].size < target {
        SearchSorted(vs, target, mid + 1, hi);
      } else {
        SearchSorted(vs, target, lo, mid);
      }
    }
  }

  lemma CandidateIsFirst(p: Pool, c: RequestClasses)
    requires Sorted(p.unused)
    ensures FirstFrom(p.unused, MinNormalSize(c), Candidate(p, c))
  {
    SearchSorted(p.unused, MinNormalSize(c), 0, |p.unused|);
  }

  /** o's partition is p's with the unused volumes from a to b moved behind the used ones. */
  ghost predicate MovedRun(p: Pool, r: Pool, a: nat, b: nat) {
    && a <= b <= |p.unused|
    && r.used == p.used + p.unused[a..b]
    && r.unused == p.unused[..a] + p.unused[b..]
    && Sorted(r.unused)
  }

  /**
   * On a sorted host promotion moves one contiguous run of the unused volumes, starting at the first one at least as
   * large as the smallest normal request, and leaves the rest sorted.
   */
  lemma {:induction false} PromotionMovesRun(l: Topology, share: Share, p: Pool, q: Query) returns (a: nat, b: nat)
    requires Sorted(p.unused)
    ensures FirstFrom(p.unused, MinNormalSize(q.classes), a)
    ensures MovedRun(p, Promote(l, share, p, q).pool, a, b)
    decreases |p.unused|
  {
    hide *;
    var k := Candidate(p, q.classes);
    CandidateIsFirst(p, q.classes);
    PromotionOnce(l, share, p, q);
    if Moves(l, share, p, q) {
      MoveShrinks(p, k);
      var c, d := PromotionMovesRun(l, share, Move(p, k), q);
      RunStart(p, k, MinNormalSize(q.classes), c);
      MovedRunNext(p, k, Promote(l, share, Move(p, k), q).pool, d);
      a, b := k, d + 1;
    } else {
      NothingMoved(p, k);
      a, b := k, k;
    }
  }

  lemma PromotionOnce(l: Topology, share: Share, p: Pool, q: Query)
    ensures var k := Candidate(p, q.classes);
      && (Moves(l, share, p, q) ==> k < |p.unused| && Promote(l, share, p, q) == Promote(l, share, Move(p, k), q))
      && (!Moves(l, share, p, q) ==> Promote(l, share, p, q) == Outcome(p, Evaluate(l, share, p, q)))
  {
    hide Evaluate, Candidate, Search;
  }

  lemma MoveShrinks(p: Pool, k: nat)
    requires k < |p.unused| && Sorted(p.unused)
    ensures |Move(p, k).unused| < |p.unused| && Sorted(Move(p, k).unused)
  {
    MoveSorted(p, k);
  }

  lemma RunStart(p: Pool, k: nat, s: int, c: nat)
    requires k < |p.unused| && FirstFrom(p.unused, s, k) && FirstFrom(Move(p, k).unused, s, c)
    ensures c == k && |Move(p, k).unused| == |p.unused| - 1
  {
    SameFirst(p.unused, Move(p, k).unused, s, k, c);
  }

  /** Promotion goes on from p. */
  ghost predicate Moves(l: Topology, share: Share, p: Pool, q: Query) {
    Wanting(Evaluate(l, share, p, q), q) && Candidate(p, q.classes) < |p.unused|
  }

  lemma NothingMoved(p: Pool, k: nat)
    requires k <= |p.unused| && Sorted(p.unused)
    ensures MovedRun(p, p, k, k)
  {
    assert p.unused[..k] + p.unused[k..] == p.unused && p.used + p.unused[k..k] == p.used;
  }

  lemma MovedRunNext(p: Pool, k: nat, r: Pool, d: nat)
    requires k < |p.unused| && MovedRun(Move(p, k), r, k, d)
    ensures MovedRun(p, r, k, d + 1)
  {
    MoveSlices(p, k, d);
  }

  lemma MoveSorted(p: Pool, k: nat)
    requires k < |p.unused| && Sorted(p.unused)
    ensures Sorted(Move(p, k).unused)
  {
    var m := Move(p, k);
    forall i, j | 0 <= i < j < |m.unused| ensures Leq(m.unused[i], m.unused[j]) {
      assert Leq(p.unused[if i < k then i else i + 1], p.unused[if j < k then j else j + 1]);
    }
  }

  lemma MoveSlices(p: Pool, k: nat, d: nat)
    requires k <= d < |p.unused|
    ensures var m := Move(p, k);
      && m.used + m.unused[k..d] == p.used + p.unused[k..d + 1]
      && m.unused[..k] + m.unused[d..] == p.unused[..k] + p.unused[d + 1..]
  {
    var m := Move(p, k);
    assert m.unused[k..d] == p.unused[k + 1..d + 1] && m.unused[..k] == p.unused[..k] && m.unused[d..] == p.unused[d + 1..];
    assert [p.unused[k]] + p.unused[k + 1..d + 1] == p.unused[k..d + 1];
  }

  lemma SameFirst(vs: seq<Volume>, ws: seq<Volume>, target: int, k: nat, c: nat)
    requires k < |vs| && FirstFrom(vs, target, k) && ws == vs[..k] + vs[k + 1..] && FirstFrom(ws, target, c)
    ensures c == k
  {
    assert c < |ws| ==> ws[c] == vs[if c < k then c else c + 1];
    assert k < |ws| ==> ws[k] == vs[k + 1];
  }
}
