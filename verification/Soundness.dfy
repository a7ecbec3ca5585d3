/** What the returned plans are made of, and that the host can pay for all of them together. */
module Soundness {
  import opened Quantity
  import opened Bindings
  import opened Disks
  import opened Volumes
  import opened Sums
  import opened Charges
  import opened Repetition
  import opened Passes
  import opened Monopoly
  import opened Termination
  import opened Planner
  import opened Evaluations
  import opened Refinement

  lemma {:induction false} PromoteGood(l: Topology, share: Share, p: Pool, q: Query)
    requires Good(l, p)
    ensures Good(l, Promote(l, share, p, q).pool)
    decreases |p.unused|
  {
    var k := Candidate(p, q.classes);
    if Wanting(Evaluate(l, share, p, q), q) && k < |p.unused| {
      MoveGood(l, p, k);
      hide Good, Evaluate;
      PromoteGood(l, share, Move(p, k), q);
    }
  }

  /** Bytes that a list of deployments takes from one device. */
  function BytesTaken(device: string): Deployment -> int {
    (d: Deployment) => BytesOn(d.volumes, device)
  }

  function PlansBytes(ds: seq<Deployment>, device: string): int {
    SumBy(BytesTaken(device), ds)
  }

  /** What the disk plans of a list of deployments hold against one meter of a disk. */
  function QuotaTaken(device: string, m: Meter): Deployment -> int {
    (d: Deployment) => TotalQuota(d.disks, device, m)
  }

  function PlansQuota(ds: seq<Deployment>, device: string, m: Meter): int {
    SumBy(QuotaTaken(device, m), ds)
  }

  // ---- One plan

  /** Every normal and mount charge of plan i. */
  function Drawn(o: Outcome, i: nat): seq<Entry>
    requires i < |o.eval.normal.plans|
  {
    o.eval.normal.plans[i]
  }

  function GroupOf(share: Share, o: Outcome, q: Query, i: nat): seq<Entry>
    requires q.classes.mono != [] ==> i < |o.eval.taken|
  {
    if q.classes.mono == [] then [] else MonoGroup(share, q.classes.mono, o.eval.taken[i])
  }

  /** A plan of the normal stage serves each normal request on a used volume and charges every mount request. */
  ghost predicate WellMade(plan: seq<Entry>, c: RequestClasses, used: seq<Volume>) {
    && |plan| == |c.normal| + |c.mount|
    && Serves(plan[..|c.normal|], c.normal, used)
    && plan[|c.normal|..] == MountEntries(c.mount)
  }

  lemma StageWellMade(l: Topology, p: Pool, c: RequestClasses, maxCount: nat, bound: int)
    ensures forall plan :: plan in NormalStage(l, p, c, maxCount, bound).plans ==> WellMade(plan, c, p.used)
  {
    if !NoWork(c) && bound >= 1 {
      var once := PassOf(l, c.normal, c.mount);
      var r := Repeat(l, p, once, bound);
      RepeatPlans(l, p, once, bound);
      forall plan | plan in r.plans ensures WellMade(plan, c, p.used) {
        var i :| 0 <= i < |r.plans| && r.plans[i] == plan;
        assert Made(l, p, once, r.plans, i);
        var fs := Flat(r.plans[..i]);
        OnePassServes(l, Debit(l, p, fs), c.normal, c.mount);
        SamePlaces(p.used, fs, plan[..|c.normal|], c.normal);
      }
    }
  }

  lemma WellMadeCharges(plan: seq<Entry>, c: RequestClasses, used: seq<Volume>)
    requires WellMade(plan, c, used) && ValidClasses(c)
    ensures NonNegativeCharges(plan)
    ensures forall device :: BytesOn(plan, device) == BytesOn(NormalPart(plan, c), device)
    ensures forall device :: !Listed(used, device) ==> BytesOn(plan, device) == 0
  {
    var n := plan[..|c.normal|];
    assert plan == n + MountEntries(c.mount);
    MountEntriesValid(c.mount);
    forall e | e in n ensures e.size >= 0 && e.binding.quota.NonNegative() && Listed(used, e.device) {
      var k :| 0 <= k < |n| && n[k] == e;
      assert c.normal[k] in c.normal;
    }
    forall device ensures BytesOn(plan, device) == BytesOn(n, device) && (!Listed(used, device) ==> BytesOn(n, device) == 0) {
      BytesConcat(n, MountEntries(c.mount), device);
      SumZero(BytesAt(device), MountEntries(c.mount));
      if !Listed(used, device) {
        SumZero(BytesAt(device), n);
      }
    }
  }

  /** The volume plan of plan i takes the bytes of its normal requests and of its group. */
  lemma PlanBytes(l: Topology, share: Share, o: Outcome, q: Query, i: nat, device: string)
    requires i < PlanCount(o, q) && ValidClasses(q.classes) && WellMade(Drawn(o, i), q.classes, o.pool.used)
    ensures BytesOn(PlanAt(l, share, o, q, i).volumes, device) == BytesOn(Drawn(o, i), device) + BytesOn(GroupOf(share, o, q, i), device)
  {
    var c := q.classes;
    var n, g := NormalPart(Drawn(o, i), c), GroupOf(share, o, q, i);
    var u := if c.unlimited == [] then [] else UnlimitedEntries(c.unlimited, Pinned(share, o, q));
    WellMadeCharges(Drawn(o, i), c, o.pool.used);
    BytesConcat(n + g, u, device);
    BytesConcat(n, g, device);
    forall e | e in u ensures BytesAt(device)(e) == 0 {
      var k :| 0 <= k < |u| && u[k] == e;
      assert c.unlimited[k] in c.unlimited;
    }
    SumZero(BytesAt(device), u);
  }

  /** The disk plan of plan i holds, against every disk, what its normal, mount and monopoly requests draw from it. */
  lemma PlanQuota(l: Topology, share: Share, o: Outcome, q: Query, i: nat, j: nat, m: Meter)
    requires i < PlanCount(o, q) && ValidClasses(q.classes) && WellMade(Drawn(o, i), q.classes, o.pool.used)
    requires UniqueSlots(l.slots) && j < |l.slots|
    ensures TotalQuota(PlanAt(l, share, o, q, i).disks, l.slots[j].device, m)
         == QuotaOn(l, Drawn(o, i), j, m) + QuotaOn(l, GroupOf(share, o, q, i), j, m)
    ensures UniqueDevices(PlanAt(l, share, o, q, i).disks)
  {
    var c := q.classes;
    var plan := Drawn(o, i);
    var n, t := NormalPart(plan, c), MountEntries(c.mount);
    assert plan == n + t;
    WellMadeCharges(plan, c, o.pool.used);
    MountEntriesValid(c.mount);
    assert forall e :: e in n ==> e in plan;
    DiskPlanTotal(l, n, j, m);
    DiskPlanTotal(l, t, j, m);
    QuotaConcat(l, n, t, j, m);
    AddedTotal(DiskPlan(l, n), DiskPlan(l, t), l.slots[j].device, m);
    AddedUnique(DiskPlan(l, n), DiskPlan(l, t));
    var ds := if c.mono == [] then [] else MonoDisks(l, c.mono, o.eval.taken[i]);
    AddedTotal(Added(DiskPlan(l, n), DiskPlan(l, t)), ds, l.slots[j].device, m);
    assert UniqueDevices(ds);
    AddedUnique(Added(DiskPlan(l, n), DiskPlan(l, t)), ds);
    if c.mono != [] {
      MonoDisksTotal(l, share, c.mono, o.eval.taken[i], j, m);
    }
  }

  lemma MonoDisksTotal(l: Topology, share: Share, reqs: seq<VolumeBinding>, v: Volume, j: nat, m: Meter)
    requires UniqueSlots(l.slots) && j < |l.slots| && ValidAll(reqs)
    ensures TotalQuota(MonoDisks(l, reqs, v), l.slots[j].device, m) == QuotaOn(l, MonoGroup(share, reqs, v), j, m)
  {
    GroupQuota(l, share, reqs, v, j, m);
    TotalValid(reqs);
    var ds := MonoDisks(l, reqs, v);
    if l.Disk(v.device).Some? && TotalBinding(reqs).RequireIOPS() {
      var i := l.Disk(v.device).value;
      TotalQuotaUnique(ds, 0, m);
      if i != j {
        TotalQuotaAbsent(ds, l.slots[j].device, m);
      }
    } else if l.Disk(v.device).Some? {
      MeterZero(TotalBinding(reqs).quota, m);
    }
  }

  // ---- All plans together

  /** Everything charged by the normal plans and the monopoly groups of an outcome. */
  function Everything(share: Share, o: Outcome, q: Query): seq<Entry> {
    Flat(o.eval.normal.plans) + Flat(Groups(share, q.classes.mono, o.eval.taken))
  }

  /** All that is ever taken from one volume is at most its free size. */
  lemma EverythingBytes(l: Topology, share: Share, p: Pool, q: Query, v: Volume)
    requires Good(l, p) && ValidClasses(q.classes) && (v in p.used || v in p.unused)
    ensures BytesOn(Everything(share, Outcome(p, Evaluate(l, share, p, q)), q), v.device) <= v.size
  {
    var e := Evaluate(l, share, p, q);
    var fs, gs := Flat(e.normal.plans), Flat(Groups(share, q.classes.mono, e.taken));
    BytesConcat(fs, gs, v.device);
    StageGood(l, p, q.classes, q.maxCount, StageBound(q, p));
    TakenAreUnused(l, share, p, q);
    if v in p.used {
      VolumeLeft(l, p, fs, v);
      forall w | w in e.taken ensures w.device != v.device {
        assert Apart(v, w);
      }
      GroupsOn(share, q.classes.mono, e.taken, v);
    } else {
      NothingOnUnused(l, p, q, e, v);
      GroupsOn(share, q.classes.mono, e.taken, v);
      if Listed(e.taken, v.device) {
        var w :| w in e.taken && w.device == v.device;
        var i :| 0 <= i < |p.unused| && p.unused[i] == v;
        var j :| 0 <= j < |p.unused| && p.unused[j] == w;
        DistinctAt(p.unused, i, j);
      } else {
        assert v.size >= 0;
      }
    }
  }

  lemma VolumeLeft(l: Topology, p: Pool, es: seq<Entry>, v: Volume)
    requires Solvent(Debit(l, p, es)) && v in p.used
    ensures BytesOn(es, v.device) <= v.size
  {
    var i :| 0 <= i < |p.used| && p.used[i] == v;
    assert Debit(l, p, es).used[i] in Debit(l, p, es).used;
  }

  lemma TakenAreUnused(l: Topology, share: Share, p: Pool, q: Query)
    requires Distinct(p.unused)
    ensures var t := Evaluate(l, share, p, q).taken;
      Distinct(t) && (forall v :: v in t ==> v in p.unused && TotalSize(q.classes.mono) <= v.size) && (q.classes.mono == [] ==> t == [])
  {
    var e := Evaluate(l, share, p, q);
    MonoRunTakes(l, share, p.unused, QuotasAfter(l, p, e.normal), q.classes.mono, |p.unused|,
      if q.classes.mono == [] then 0 else MonoBound(q, p, |e.normal.plans|));
  }

  lemma GroupsOn(share: Share, reqs: seq<VolumeBinding>, vs: seq<Volume>, v: Volume)
    requires Distinct(vs) && (reqs == [] ==> vs == [])
    ensures !Listed(vs, v.device) ==> BytesOn(Flat(Groups(share, reqs, vs)), v.device) == 0
    ensures forall w :: w in vs && w.device == v.device ==> BytesOn(Flat(Groups(share, reqs, vs)), v.device) == w.size
  {
    if reqs != [] {
      GroupsBytes(share, reqs, vs, v.device);
    } else {
      assert Groups(share, reqs, vs) == [];
    }
  }

  /** Normal and mount charges take no bytes from an unused volume. */
  lemma NothingOnUnused(l: Topology, p: Pool, q: Query, e: Evaluation, v: Volume)
    requires Disjoint(p.used, p.unused) && ValidClasses(q.classes) && v in p.unused
    requires e.normal == NormalStage(l, p, q.classes, q.maxCount, StageBound(q, p))
    ensures BytesOn(Flat(e.normal.plans), v.device) == 0
  {
    StageWellMade(l, p, q.classes, q.maxCount, StageBound(q, p));
    forall w | w in p.used ensures w.device != v.device {
      assert Apart(w, v);
    }
    forall plan | plan in e.normal.plans ensures BytesOn(plan, v.device) == 0 {
      WellMadeCharges(plan, q.classes, p.used);
    }
    FlatNoBytes(e.normal.plans, v.device);
  }

  lemma {:induction false} FlatNoBytes(plans: seq<seq<Entry>>, device: string)
    requires forall plan :: plan in plans ==> BytesOn(plan, device) == 0
    ensures BytesOn(Flat(plans), device) == 0
  {
    if plans != [] {
      assert plans == plans[..|plans| - 1] + [plans[|plans| - 1]];
      FlatNoBytes(plans[..|plans| - 1], device);
      BytesConcat(Flat(plans[..|plans| - 1]), plans[|plans| - 1], device);
    }
  }

  lemma QuotasSolvent(l: Topology, share: Share, p: Pool, q: Query)
    requires Good(l, p) && ValidClasses(q.classes)
    ensures NonNegativeQuotas(Debit(l, p, Everything(share, Outcome(p, Evaluate(l, share, p, q)), q)).quotas)
  {
    var c := q.classes;
    var e := Evaluate(l, share, p, q);
    var fs, gs, w := Flat(e.normal.plans), Flat(Groups(share, c.mono, e.taken)), e.normal.waste;
    StageGood(l, p, c, q.maxCount, StageBound(q, p));
    MonoRunQuotas(l, share, p.unused, QuotasAfter(l, p, e.normal), c.mono, |p.unused|,
      if c.mono == [] then 0 else MonoBound(q, p, |e.normal.plans|));
    DebitQuotasConcat(l, p.quotas, fs + w, gs);
    WasteNonNegative(l, p, c, q.maxCount, StageBound(q, p));
    var d, s := DebitQuotas(l, p.quotas, fs + gs), DebitQuotas(l, p.quotas, fs + w + gs);
    forall j | 0 <= j < |d| ensures d[j].NonNegative() {
      assert s[j].NonNegative();
      forall m: Meter ensures d[j].Get(m) >= 0 {
        QuotaConcat(l, fs, gs, j, m);
        QuotaConcat(l, fs + w, gs, j, m);
        QuotaConcat(l, fs, w, j, m);
        QuotaNonNegative(l, w, j, m);
        MeterZero(s[j], m);
      }
      NonNegativeByMeter(d[j]);
    }
  }

  lemma WasteNonNegative(l: Topology, p: Pool, c: RequestClasses, maxCount: nat, bound: int)
    requires ValidClasses(c)
    ensures NonNegativeCharges(NormalStage(l, p, c, maxCount, bound).waste)
  {
    MountEntriesValid(c.mount);
    CheckedPassPrefix(l, p, MountEntries(c.mount));
    if !NoWork(c) && bound >= 1 {
      RepeatWaste(l, p, PassOf(l, c.normal, c.mount), bound);
      var r := Repeat(l, p, PassOf(l, c.normal, c.mount), bound);
      OnePassNonNegative(l, Debit(l, p, Flat(r.plans)), c.normal, c.mount);
    }
  }

  lemma {:induction false} RepeatWaste(l: Topology, p: Pool, once: Pool -> Pass, bound: nat)
    ensures var r := Repeat(l, p, once, bound); r.stopped ==> r.waste == once(Debit(l, p, Flat(r.plans))).entries
  {
    if bound > 0 {
      RepeatWaste(l, p, once, bound - 1);
    }
  }

  // ---- The returned plans

  /** The groups of the first k plans. */
  function FirstGroups(share: Share, o: Outcome, q: Query, k: nat): seq<Entry>
    requires q.classes.mono != [] ==> k <= |o.eval.taken|
  {
    if q.classes.mono == [] then [] else Flat(Groups(share, q.classes.mono, o.eval.taken[..k]))
  }

  lemma FirstGroupsNext(share: Share, o: Outcome, q: Query, k: nat)
    requires q.classes.mono != [] ==> k < |o.eval.taken|
    ensures FirstGroups(share, o, q, k + 1) == FirstGroups(share, o, q, k) + GroupOf(share, o, q, k)
  {
    if q.classes.mono != [] {
      assert o.eval.taken[..k + 1] == o.eval.taken[..k] + [o.eval.taken[k]];
      GroupsAppend(share, q.classes.mono, o.eval.taken[..k], o.eval.taken[k]);
    }
  }

  lemma FlatNext(plans: seq<seq<Entry>>, k: nat)
    requires k < |plans|
    ensures Flat(plans[..k + 1]) == Flat(plans[..k]) + plans[k]
  {
    assert plans[..k + 1] == plans[..k] + [plans[k]];
    FlatAppend(plans[..k], plans[k]);
  }

  ghost predicate AllWellMade(o: Outcome, c: RequestClasses) {
    forall i :: 0 <= i < |o.eval.normal.plans| ==> WellMade(o.eval.normal.plans[i], c, o.pool.used)
  }

  /** The first k plans take what the first k normal plans and groups charge. */
  lemma {:induction false} FirstPlansBytes(l: Topology, share: Share, o: Outcome, q: Query, k: nat, device: string)
    requires k <= PlanCount(o, q) && ValidClasses(q.classes) && AllWellMade(o, q.classes)
    ensures PlansBytes(Plans(l, share, o, q)[..k], device)
         == BytesOn(Flat(o.eval.normal.plans[..k]), device) + BytesOn(FirstGroups(share, o, q, k), device)
  {
    if k == 0 {
      NoPlansYet(l, share, o, q, device, k, ReadIOPS);
    } else {
      FirstPlansBytes(l, share, o, q, k - 1, device);
      hide *;
      OneMorePlanBytes(l, share, o, q, k - 1, device);
    }
  }

  lemma OneMorePlanBytes(l: Topology, share: Share, o: Outcome, q: Query, k: nat, device: string)
    requires k < PlanCount(o, q) && ValidClasses(q.classes) && AllWellMade(o, q.classes)
    requires PlansBytes(Plans(l, share, o, q)[..k], device)
          == BytesOn(Flat(o.eval.normal.plans[..k]), device) + BytesOn(FirstGroups(share, o, q, k), device)
    ensures PlansBytes(Plans(l, share, o, q)[..k + 1], device)
         == BytesOn(Flat(o.eval.normal.plans[..k + 1]), device) + BytesOn(FirstGroups(share, o, q, k + 1), device)
  {
    hide *;
    PlansBytesNext(l, share, o, q, k, device);
    NextPlanBytes(l, share, o, q, k, device);
  }

  lemma PlansBytesNext(l: Topology, share: Share, o: Outcome, q: Query, k: nat, device: string)
    requires k < PlanCount(o, q)
    ensures PlansBytes(Plans(l, share, o, q)[..k + 1], device)
         == PlansBytes(Plans(l, share, o, q)[..k], device) + BytesOn(PlanAt(l, share, o, q, k).volumes, device)
  {
    assert Plans(l, share, o, q)[k] == PlanAt(l, share, o, q, k);
    BytesPrefixNext(Plans(l, share, o, q), k, device);
  }

  lemma BytesPrefixNext(ds: seq<Deployment>, k: nat, device: string)
    requires k < |ds|
    ensures PlansBytes(ds[..k + 1], device) == PlansBytes(ds[..k], device) + BytesOn(ds[k].volumes, device)
  {
    assert ds[..k + 1] == ds[..k] + [ds[k]];
    SumAppend(BytesTaken(device), ds[..k], ds[k]);
  }

  lemma NextPlanBytes(l: Topology, share: Share, o: Outcome, q: Query, k: nat, device: string)
    requires k < PlanCount(o, q) && ValidClasses(q.classes) && AllWellMade(o, q.classes)
    ensures BytesOn(Flat(o.eval.normal.plans[..k + 1]), device) + BytesOn(FirstGroups(share, o, q, k + 1), device)
         == BytesOn(Flat(o.eval.normal.plans[..k]), device) + BytesOn(FirstGroups(share, o, q, k), device)
            + BytesOn(PlanAt(l, share, o, q, k).volumes, device)
  {
    assert WellMade(Drawn(o, k), q.classes, o.pool.used);
    PlanBytes(l, share, o, q, k, device);
    FlatNext(o.eval.normal.plans, k);
    FirstGroupsNext(share, o, q, k);
    BytesConcat(Flat(o.eval.normal.plans[..k]), Drawn(o, k), device);
    BytesConcat(FirstGroups(share, o, q, k), GroupOf(share, o, q, k), device);
  }

  lemma {:induction false} FirstPlansQuota(l: Topology, share: Share, o: Outcome, q: Query, k: nat, j: nat, m: Meter)
    requires k <= PlanCount(o, q) && ValidClasses(q.classes) && AllWellMade(o, q.classes)
    requires UniqueSlots(l.slots) && j < |l.slots|
    ensures PlansQuota(Plans(l, share, o, q)[..k], l.slots[j].device, m)
         == QuotaOn(l, Flat(o.eval.normal.plans[..k]), j, m) + QuotaOn(l, FirstGroups(share, o, q, k), j, m)
  {
    if k == 0 {
      NoPlansYet(l, share, o, q, "", j, m);
    } else {
      FirstPlansQuota(l, share, o, q, k - 1, j, m);
      hide *;
      OneMorePlanQuota(l, share, o, q, k - 1, j, m);
    }
  }

  lemma OneMorePlanQuota(l: Topology, share: Share, o: Outcome, q: Query, k: nat, j: nat, m: Meter)
    requires k < PlanCount(o, q) && ValidClasses(q.classes) && AllWellMade(o, q.classes)
    requires UniqueSlots(l.slots) && j < |l.slots|
    requires PlansQuota(Plans(l, share, o, q)[..k], l.slots[j].device, m)
          == QuotaOn(l, Flat(o.eval.normal.plans[..k]), j, m) + QuotaOn(l, FirstGroups(share, o, q, k), j, m)
    ensures PlansQuota(Plans(l, share, o, q)[..k + 1], l.slots[j].device, m)
         == QuotaOn(l, Flat(o.eval.normal.plans[..k + 1]), j, m) + QuotaOn(l, FirstGroups(share, o, q, k + 1), j, m)
  {
    hide *;
    PlansQuotaNext(l, share, o, q, k, l.slots[j].device, m);
    NextPlanQuota(l, share, o, q, k, j, m);
  }

  lemma PlansQuotaNext(l: Topology, share: Share, o: Outcome, q: Query, k: nat, device: string, m: Meter)
    requires k < PlanCount(o, q)
    ensures PlansQuota(Plans(l, share, o, q)[..k + 1], device, m)
         == PlansQuota(Plans(l, share, o, q)[..k], device, m) + TotalQuota(PlanAt(l, share, o, q, k).disks, device, m)
  {
    assert Plans(l, share, o, q)[k] == PlanAt(l, share, o, q, k);
    QuotaPrefixNext(Plans(l, share, o, q), k, device, m);
  }

  lemma QuotaPrefixNext(ds: seq<Deployment>, k: nat, device: string, m: Meter)
    requires k < |ds|
    ensures PlansQuota(ds[..k + 1], device, m) == PlansQuota(ds[..k], device, m) + TotalQuota(ds[k].disks, device, m)
  {
    assert ds[..k + 1] == ds[..k] + [ds[k]];
    SumAppend(QuotaTaken(device, m), ds[..k], ds[k]);
  }

  lemma NextPlanQuota(l: Topology, share: Share, o: Outcome, q: Query, k: nat, j: nat, m: Meter)
    requires k < PlanCount(o, q) && ValidClasses(q.classes) && AllWellMade(o, q.classes)
    requires UniqueSlots(l.slots) && j < |l.slots|
    ensures QuotaOn(l, Flat(o.eval.normal.plans[..k + 1]), j, m) + QuotaOn(l, FirstGroups(share, o, q, k + 1), j, m)
         == QuotaOn(l, Flat(o.eval.normal.plans[..k]), j, m) + QuotaOn(l, FirstGroups(share, o, q, k), j, m)
            + TotalQuota(PlanAt(l, share, o, q, k).disks, l.slots[j].device, m)
  {
    assert WellMade(Drawn(o, k), q.classes, o.pool.used);
    PlanQuota(l, share, o, q, k, j, m);
    FlatNext(o.eval.normal.plans, k);
    FirstGroupsNext(share, o, q, k);
    QuotaConcat(l, Flat(o.eval.normal.plans[..k]), Drawn(o, k), j, m);
    QuotaConcat(l, FirstGroups(share, o, q, k), GroupOf(share, o, q, k), j, m);
  }

  /** Plans beyond the returned ones only add to what was charged. */
  lemma {:induction false} FlatGrows(l: Topology, o: Outcome, c: RequestClasses, k: nat, n: nat, device: string, j: nat, m: Meter)
    requires k <= n <= |o.eval.normal.plans| && AllWellMade(o, c) && ValidClasses(c)
    ensures BytesOn(Flat(o.eval.normal.plans[..k]), device) <= BytesOn(Flat(o.eval.normal.plans[..n]), device)
    ensures QuotaOn(l, Flat(o.eval.normal.plans[..k]), j, m) <= QuotaOn(l, Flat(o.eval.normal.plans[..n]), j, m)
    decreases n
  {
    if k < n {
      FlatGrows(l, o, c, k, n - 1, device, j, m);
      FlatNext(o.eval.normal.plans, n - 1);
      var plan := o.eval.normal.plans[n - 1];
      WellMadeCharges(plan, c, o.pool.used);
      BytesConcat(Flat(o.eval.normal.plans[..n - 1]), plan, device);
      QuotaConcat(l, Flat(o.eval.normal.plans[..n - 1]), plan, j, m);
      BytesNonNegative(plan, device);
      QuotaNonNegative(l, plan, j, m);
    }
  }

  lemma {:induction false} GroupsGrow(l: Topology, share: Share, o: Outcome, q: Query, k: nat, n: nat, device: string, j: nat, m: Meter)
    requires q.classes.mono != [] ==> k <= n <= |o.eval.taken|
    requires ValidClasses(q.classes) && forall v :: v in o.eval.taken ==> v.size >= 0
    ensures BytesOn(FirstGroups(share, o, q, k), device) <= BytesOn(FirstGroups(share, o, q, n), device)
    ensures QuotaOn(l, FirstGroups(share, o, q, k), j, m) <= QuotaOn(l, FirstGroups(share, o, q, n), j, m)
    decreases n
  {
    if k < n && q.classes.mono != [] {
      GroupsGrow(l, share, o, q, k, n - 1, device, j, m);
      FirstGroupsNext(share, o, q, n - 1);
      BytesConcat(FirstGroups(share, o, q, n - 1), GroupOf(share, o, q, n - 1), device);
      QuotaConcat(l, FirstGroups(share, o, q, n - 1), GroupOf(share, o, q, n - 1), j, m);
      GroupBytes(share, q.classes.mono, o.eval.taken[n - 1], device);
      GroupQuota(l, share, q.classes.mono, o.eval.taken[n - 1], j, m);
      assert o.eval.taken[n - 1] in o.eval.taken;
      TotalValid(q.classes.mono);
      MeterZero(TotalBinding(q.classes.mono).quota, m);
    }
  }

  lemma NoPlansYet(l: Topology, share: Share, o: Outcome, q: Query, device: string, j: nat, m: Meter)
    ensures BytesOn(Flat(o.eval.normal.plans[..0]), device) == 0 && BytesOn(FirstGroups(share, o, q, 0), device) == 0
    ensures QuotaOn(l, Flat(o.eval.normal.plans[..0]), j, m) == 0 && QuotaOn(l, FirstGroups(share, o, q, 0), j, m) == 0
  {
    assert q.classes.mono != [] ==> Groups(share, q.classes.mono, o.eval.taken[..0]) == [];
  }

  /** The shape of an evaluation that sums over its plans rely on. */
  ghost predicate WellShaped(o: Outcome, q: Query) {
    && ValidClasses(q.classes) && AllWellMade(o, q.classes)
    && (forall v :: v in o.eval.taken ==> v.size >= 0)
    && (q.classes.mono == [] ==> o.eval.taken == [])
  }

  lemma EvaluationShape(l: Topology, share: Share, p: Pool, q: Query)
    requires Good(l, p) && ValidClasses(q.classes)
    ensures WellShaped(Outcome(p, Evaluate(l, share, p, q)), q)
  {
    var o := Outcome(p, Evaluate(l, share, p, q));
    StageWellMade(l, p, q.classes, q.maxCount, StageBound(q, p));
    forall i | 0 <= i < |o.eval.normal.plans| ensures WellMade(o.eval.normal.plans[i], q.classes, p.used) {
      assert o.eval.normal.plans[i] in o.eval.normal.plans;
    }
    TakenAreUnused(l, share, p, q);
  }

  /** The returned plans together take at most everything that was charged, and nothing negative. */
  lemma BytesWithin(l: Topology, share: Share, o: Outcome, q: Query, device: string)
    requires WellShaped(o, q)
    ensures 0 <= PlansBytes(Plans(l, share, o, q), device) <= BytesOn(Everything(share, o, q), device)
  {
    var ds := Plans(l, share, o, q);
    var k, n, t := PlanCount(o, q), |o.eval.normal.plans|, |o.eval.taken|;
    assert ds[..k] == ds && o.eval.normal.plans[..n] == o.eval.normal.plans;
    assert q.classes.mono != [] ==> k <= t;
    FirstPlansBytes(l, share, o, q, k, device);
    hide AllWellMade, ValidClasses;
    FlatGrows(l, o, q.classes, k, n, device, 0, ReadIOPS);
    FlatGrows(l, o, q.classes, 0, k, device, 0, ReadIOPS);
    GroupsGrow(l, share, o, q, k, t, device, 0, ReadIOPS);
    GroupsGrow(l, share, o, q, 0, k, device, 0, ReadIOPS);
    NoPlansYet(l, share, o, q, device, 0, ReadIOPS);
    WholeGroups(share, o, q);
    BytesConcat(Flat(o.eval.normal.plans), FirstGroups(share, o, q, t), device);
  }

  lemma QuotaWithin(l: Topology, share: Share, o: Outcome, q: Query, j: nat, m: Meter)
    requires WellShaped(o, q) && UniqueSlots(l.slots) && j < |l.slots|
    ensures 0 <= PlansQuota(Plans(l, share, o, q), l.slots[j].device, m) <= QuotaOn(l, Everything(share, o, q), j, m)
  {
    var ds := Plans(l, share, o, q);
    var k, n, t := PlanCount(o, q), |o.eval.normal.plans|, |o.eval.taken|;
    assert ds[..k] == ds && o.eval.normal.plans[..n] == o.eval.normal.plans;
    assert q.classes.mono != [] ==> k <= t;
    FirstPlansQuota(l, share, o, q, k, j, m);
    hide AllWellMade, ValidClasses;
    FlatGrows(l, o, q.classes, k, n, "", j, m);
    FlatGrows(l, o, q.classes, 0, k, "", j, m);
    GroupsGrow(l, share, o, q, k, t, "", j, m);
    GroupsGrow(l, share, o, q, 0, k, "", j, m);
    NoPlansYet(l, share, o, q, "", j, m);
    WholeGroups(share, o, q);
    QuotaConcat(l, Flat(o.eval.normal.plans), FirstGroups(share, o, q, t), j, m);
  }

  lemma WholeGroups(share: Share, o: Outcome, q: Query)
    requires q.classes.mono == [] ==> o.eval.taken == []
    ensures Everything(share, o, q) == Flat(o.eval.normal.plans) + FirstGroups(share, o, q, |o.eval.taken|)
  {
    assert o.eval.taken[..|o.eval.taken|] == o.eval.taken;
    assert q.classes.mono == [] ==> Groups(share, [], o.eval.taken) == [];
  }

  /** The plans fit a host: per volume and per meter of every disk, all of them together. */
  ghost predicate Affordable(l: Topology, p: Pool, ds: seq<Deployment>) {
    && (forall v :: v in p.used || v in p.unused ==> 0 <= PlansBytes(ds, v.device) <= v.size)
    && (forall j, m :: 0 <= j < |l.slots| && j < |p.quotas| ==> 0 <= PlansQuota(ds, l.slots[j].device, m) <= p.quotas[j].Get(m))
  }

  lemma EvaluationAffordable(l: Topology, share: Share, p: Pool, q: Query)
    requires Good(l, p) && ValidClasses(q.classes) && UniqueSlots(l.slots)
    ensures Affordable(l, p, Plans(l, share, Outcome(p, Evaluate(l, share, p, q)), q))
  {
    var o := Outcome(p, Evaluate(l, share, p, q));
    var ds := Plans(l, share, o, q);
    EvaluationShape(l, share, p, q);
    forall v | v in p.used || v in p.unused ensures 0 <= PlansBytes(ds, v.device) <= v.size {
      BytesWithin(l, share, o, q, v.device);
      EverythingBytes(l, share, p, q, v);
    }
    forall j, m | 0 <= j < |l.slots| && j < |p.quotas| ensures 0 <= PlansQuota(ds, l.slots[j].device, m) <= p.quotas[j].Get(m) {
      QuotaWithin(l, share, o, q, j, m);
      QuotasSolvent(l, share, p, q);
      MeterZero(Debit(l, p, Everything(share, o, q)).quotas[j], m);
    }
  }

  lemma NoDeployments(ds: seq<Deployment>, device: string, m: Meter)
    requires forall d :: d in ds ==> d == Deployment([], [])
    ensures PlansBytes(ds, device) == 0 && PlansQuota(ds, device, m) == 0
  {
    SumZero(BytesTaken(device), ds);
    SumZero(QuotaTaken(device, m), ds);
  }

  /**
   * All plans GetVolumePlans returns for a valid host and request list fit the host together: on every volume and on
   * every meter of every disk, across normal, mount, monopoly and unlimited bindings, promotion and failed passes.
   */
  lemma PlansAffordable(l: Topology, share: Share, p: Pool, reqs: seq<VolumeBinding>, maxCount: nat, mode: Mode)
    requires Good(l, p) && ValidRequests(reqs) && UniqueSlots(l.slots)
    ensures Affordable(l, p, Schedule(l, share, p, reqs, maxCount, mode))
  {
    var ds := Schedule(l, share, p, reqs, maxCount, mode);
    if NeedSchedule(reqs) && !NoVolumes(p, Classify(reqs)) {
      var q := QueryFor(p, reqs, maxCount, mode);
      var o := Promote(l, share, p, q);
      ClassifyValid(reqs);
      PromoteGood(l, share, p, q);
      PromoteShape(l, share, p, q);
      EvaluationAffordable(l, share, o.pool, q);
      assert ds == Plans(l, share, o, q);
      SameMembers(o.pool, p);
    } else {
      forall v | v in p.used || v in p.unused ensures 0 <= PlansBytes(ds, v.device) <= v.size {
        NoDeployments(ds, v.device, ReadIOPS);
      }
      forall j, m | 0 <= j < |l.slots| && j < |p.quotas| ensures 0 <= PlansQuota(ds, l.slots[j].device, m) <= p.quotas[j].Get(m) {
        NoDeployments(ds, l.slots[j].device, m);
        MeterZero(p.quotas[j], m);
      }
    }
  }

  lemma SameMembers(p: Pool, q: Pool)
    requires multiset(p.used + p.unused) == multiset(q.used + q.unused)
    ensures forall v :: (v in p.used || v in p.unused) <==> (v in q.used || v in q.unused)
  {
    forall v ensures (v in p.used || v in p.unused) <==> (v in q.used || v in q.unused) {
      assert (v in p.used || v in p.unused) <==> v in p.used + p.unused;
      assert v in p.used + p.unused <==> v in multiset(p.used + p.unused);
      assert (v in q.used || v in q.unused) <==> v in q.used + q.unused;
      assert v in q.used + q.unused <==> v in multiset(q.used + q.unused);
    }
  }
}
