/** Reallocating a workload with the requests it was deployed with gives it the plan it has. */
module Fixpoint {
  import opened Quantity
  import opened Options
  import opened Bindings
  import opened Disks
  import opened Volumes
  import opened Sums
  import opened Charges
  import opened Repetition
  import opened Passes
  import opened Monopoly
  import opened Termination
  import opened Planner
  import opened Evaluations
  import opened Soundness
  import opened PlanContents
  import opened VolumePlans
  import opened Affinity
  import opened Reallocation

  // ---- Everything in a plan that asks for quota is on a disk

  lemma StageOnDisks(l: Topology, p: Pool, c: RequestClasses, maxCount: nat, bound: int)
    requires ValidAll(c.mount)
    ensures forall plan :: plan in NormalStage(l, p, c, maxCount, bound).plans ==> OnDisks(l, plan)
  {
    if NoWork(c) {
      MountEntriesFree(l, c.mount);
    } else if bound >= 1 {
      var once := PassOf(l, c.normal, c.mount);
      var r := Repeat(l, p, once, bound);
      RepeatPlans(l, p, once, bound);
      forall plan | plan in r.plans ensures OnDisks(l, plan) {
        var i :| 0 <= i < |r.plans| && r.plans[i] == plan;
        assert Made(l, p, once, r.plans, i);
        OnePassOnDisks(l, Debit(l, p, Flat(r.plans[..i])), c.normal, c.mount);
      }
    }
  }

  lemma OnePassOnDisks(l: Topology, p: Pool, normal: seq<VolumeBinding>, mount: seq<VolumeBinding>)
    ensures OnDisks(l, OnePass(l, p, normal, mount).entries)
  {
    NormalPassOnDisks(l, p, normal);
    CheckedPassOnDisks(l, Debit(l, p, NormalPass(l, p, normal).entries), MountEntries(mount));
  }

  /** The volumes taken lie on disks when the group asks for quota. */
  lemma {:induction false} TakenOnDisks(l: Topology, share: Share, unused: seq<Volume>, qs: seq<Quota>,
      reqs: seq<VolumeBinding>, n: nat, bound: nat)
    requires n <= |unused|
    ensures TotalBinding(reqs).RequireIOPS() ==> forall v :: v in MonoRun(l, share, unused, qs, reqs, n, bound) ==> l.Disk(v.device).Some?
  {
    if n > 0 {
      TakenOnDisks(l, share, unused, qs, reqs, n - 1, bound);
    }
  }

  /** The parts of a plan, the mount requests included, are on disks where they ask for quota. */
  lemma PlanOnDisks(l: Topology, share: Share, p: Pool, q: Query, i: nat)
    requires ValidClasses(q.classes) && i < PlanCount(Outcome(p, Evaluate(l, share, p, q)), q)
    ensures var o := Outcome(p, Evaluate(l, share, p, q));
      && OnDisks(l, Drawn(o, i))
      && (q.classes.mono != [] && TotalBinding(q.classes.mono).RequireIOPS() ==> l.Disk(o.eval.taken[i].device).Some?)
  {
    var o := Outcome(p, Evaluate(l, share, p, q));
    StageOnDisks(l, p, q.classes, q.maxCount, StageBound(q, p));
    assert Drawn(o, i) in o.eval.normal.plans;
    if q.classes.mono != [] {
      TakenOnDisks(l, share, p.unused, QuotasAfter(l, p, o.eval.normal), q.classes.mono, |p.unused|, MonoBound(q, p, NormalCount(o.eval)));
      assert o.eval.taken[i] in o.eval.taken;
    }
  }

  // ---- A plan in three parts

  /** Plan d of requests c consists of n, the group on volume v, and u, and everything in it that asks for quota is on a disk. */
  ghost predicate InParts(l: Topology, share: Share, c: RequestClasses, d: Deployment, n: VolumePlan, v: Volume, u: VolumePlan) {
    && d.volumes == n + MonoGroup(share, c.mono, v) + u
    && Sized(n, c.normal) && Sized(u, c.unlimited)
    && (c.mono != [] ==> TotalSize(c.mono) <= v.size)
    && OnDisks(l, n) && OnDisks(l, MountEntries(c.mount))
    && (c.mono != [] && TotalBinding(c.mono).RequireIOPS() ==> l.Disk(v.device).Some?)
    && HoldsFor(l, d.disks, d.volumes + MountEntries(c.mount))
  }

  /** Entries of reqs in order, each with its own size. */
  ghost predicate Sized(es: VolumePlan, reqs: seq<VolumeBinding>) {
    |es| == |reqs| && forall k :: 0 <= k < |es| ==> es[k].binding == reqs[k] && es[k].size == reqs[k].size
  }

  lemma PlanInParts(l: Topology, share: Share, p: Pool, reqs: seq<VolumeBinding>, maxCount: nat, mode: Mode, i: nat)
      returns (n: VolumePlan, v: Volume, u: VolumePlan)
    requires Good(l, p) && ValidRequests(reqs) && UniqueSlots(l.slots) && NeedSchedule(reqs)
    requires i < |Schedule(l, share, p, reqs, maxCount, mode)|
    ensures InParts(l, share, Classify(reqs), Schedule(l, share, p, reqs, maxCount, mode)[i], n, v, u)
    ensures Classify(reqs).mono != [] ==> v in p.unused
    ensures forall e :: e in Schedule(l, share, p, reqs, maxCount, mode)[i].volumes ==> OnHost(p, e.device)
  {
    var c := Classify(reqs);
    var d := Schedule(l, share, p, reqs, maxCount, mode)[i];
    v := PlansComplete(l, share, p, reqs, maxCount, mode, i);
    ScheduleOnDisks(l, share, p, reqs, maxCount, mode, i, v);
    hide *;
    n, u := CompleteInParts(l, share, p, c, d, v);
  }

  lemma CompleteInParts(l: Topology, share: Share, p: Pool, c: RequestClasses, d: Deployment, v: Volume)
      returns (n: VolumePlan, u: VolumePlan)
    requires Complete(l, share, p, c, d, v) && OnDisks(l, d.volumes[..|c.normal|]) && OnDisks(l, MountEntries(c.mount))
    requires c.mono != [] && TotalBinding(c.mono).RequireIOPS() ==> l.Disk(v.device).Some?
    ensures InParts(l, share, c, d, n, v, u) && (c.mono != [] ==> v in p.unused)
    ensures forall e :: e in d.volumes ==> OnHost(p, e.device)
  {
    n, u := d.volumes[..|c.normal|], d.volumes[|c.normal| + |c.mono|..];
    assert d.volumes == n + d.volumes[|c.normal|..|c.normal| + |c.mono|] + u;
    forall e | e in d.volumes ensures OnHost(p, e.device) {
      EntryOnHost(share, p, c, d, v, n, u, e);
    }
  }

  lemma EntryOnHost(share: Share, p: Pool, c: RequestClasses, d: Deployment, v: Volume, n: VolumePlan, u: VolumePlan, e: Entry)
    requires Places(n, c.normal, p) && Places(u, c.unlimited, p) && (c.mono != [] ==> v in p.unused)
    requires d.volumes == n + MonoGroup(share, c.mono, v) + u && e in d.volumes
    ensures OnHost(p, e.device)
  {
    var g := MonoGroup(share, c.mono, v);
    if e in n {
      var k :| 0 <= k < |n| && n[k] == e;
    } else if e in g {
      var k :| 0 <= k < |g| && g[k] == e;
    } else {
      var k :| 0 <= k < |u| && u[k] == e;
    }
  }

  lemma ScheduleOnDisks(l: Topology, share: Share, p: Pool, reqs: seq<VolumeBinding>, maxCount: nat, mode: Mode, i: nat, v: Volume)
    requires Good(l, p) && ValidRequests(reqs) && NeedSchedule(reqs) && i < |Schedule(l, share, p, reqs, maxCount, mode)|
    requires Complete(l, share, p, Classify(reqs), Schedule(l, share, p, reqs, maxCount, mode)[i], v)
    ensures var c := Classify(reqs); var d := Schedule(l, share, p, reqs, maxCount, mode)[i];
      && OnDisks(l, d.volumes[..|c.normal|]) && OnDisks(l, MountEntries(c.mount))
      && (c.mono != [] && TotalBinding(c.mono).RequireIOPS() ==> l.Disk(v.device).Some?)
  {
    var c := Classify(reqs);
    var q := QueryFor(p, reqs, maxCount, mode);
    ClassifyValid(reqs);
    ScheduleIsPromoted(l, share, p, reqs, maxCount, mode);
    var o := Promote(l, share, p, q);
    PromoteShape(l, share, p, q);
    assert o == Outcome(o.pool, Evaluate(l, share, o.pool, q));
    assert Schedule(l, share, p, reqs, maxCount, mode)[i] == PlanAt(l, share, o, q, i);
    hide Schedule, Promote, Evaluate, Plans, PlanAt, Good, NeedSchedule, Classify, ValidRequests, ValidClasses, PlanCount;
    OutcomeOnDisks(l, share, o.pool, q, i, v);
  }

  lemma OutcomeOnDisks(l: Topology, share: Share, p: Pool, q: Query, i: nat, v: Volume)
    requires ValidClasses(q.classes) && i < PlanCount(Outcome(p, Evaluate(l, share, p, q)), q)
    requires var c := q.classes; var d := PlanAt(l, share, Outcome(p, Evaluate(l, share, p, q)), q, i);
      && |d.volumes| == |c.normal| + |c.mono| + |c.unlimited|
      && d.volumes[|c.normal|..|c.normal| + |c.mono|] == MonoGroup(share, c.mono, v)
    ensures var c := q.classes; var d := PlanAt(l, share, Outcome(p, Evaluate(l, share, p, q)), q, i);
      && OnDisks(l, d.volumes[..|c.normal|]) && OnDisks(l, MountEntries(c.mount))
      && (c.mono != [] && TotalBinding(c.mono).RequireIOPS() ==> l.Disk(v.device).Some?)
  {
    PlanOnDisks(l, share, p, q, i);
    StageWellMade(l, p, q.classes, q.maxCount, StageBound(q, p));
    PlanPartsOnDisks(l, share, Outcome(p, Evaluate(l, share, p, q)), q, i, v);
  }

  lemma PlanPartsOnDisks(l: Topology, share: Share, o: Outcome, q: Query, i: nat, v: Volume)
    requires i < PlanCount(o, q) && OnDisks(l, Drawn(o, i)) && WellMade(Drawn(o, i), q.classes, o.pool.used)
    requires q.classes.mono != [] && TotalBinding(q.classes.mono).RequireIOPS() ==> l.Disk(o.eval.taken[i].device).Some?
    requires |PlanAt(l, share, o, q, i).volumes| == |q.classes.normal| + |q.classes.mono| + |q.classes.unlimited|
    requires var d := PlanAt(l, share, o, q, i);
      d.volumes[|q.classes.normal|..|q.classes.normal| + |q.classes.mono|] == MonoGroup(share, q.classes.mono, v)
    ensures OnDisks(l, PlanAt(l, share, o, q, i).volumes[..|q.classes.normal|]) && OnDisks(l, MountEntries(q.classes.mount))
    ensures q.classes.mono != [] && TotalBinding(q.classes.mono).RequireIOPS() ==> l.Disk(v.device).Some?
  {
    var c := q.classes;
    var plan, d := Drawn(o, i), PlanAt(l, share, o, q, i).volumes;
    var n, g, u := NormalPart(plan, c), GroupOf(share, o, q, i), UnlimitedPart(share, o, q);
    assert d == n + g + u && |n| == |c.normal| && |g| == |c.mono|;
    assert plan == n + MountEntries(c.mount);
    assert c.mono != [] ==> g == MonoGroup(share, c.mono, o.eval.taken[i]);
    hide *;
    FirstParts(d, n, g, u);
    PartsOnDisks(l, plan, n, MountEntries(c.mount));
    if c.mono != [] {
      SameGroupDevice(share, c.mono, v, o.eval.taken[i]);
    }
  }

  lemma FirstParts(d: VolumePlan, n: VolumePlan, g: VolumePlan, u: VolumePlan)
    requires d == n + g + u
    ensures d[..|n|] == n && d[|n|..|n| + |g|] == g
  {
  }

  lemma PartsOnDisks(l: Topology, plan: seq<Entry>, n: seq<Entry>, mounts: seq<Entry>)
    requires OnDisks(l, plan) && plan == n + mounts
    ensures OnDisks(l, n) && OnDisks(l, mounts)
  {
  }

  /** A group shows the device of its volume. */
  lemma SameGroupDevice(share: Share, mono: seq<VolumeBinding>, v: Volume, w: Volume)
    requires mono != [] && MonoGroup(share, mono, v) == MonoGroup(share, mono, w)
    ensures v.device == w.device
  {
    assert MonoGroup(share, mono, v)[0].device == v.device && MonoGroup(share, mono, w)[0].device == w.device;
  }

  // ---- The origin matches itself

  lemma KeysDistinct(l: Topology, share: Share, reqs: seq<VolumeBinding>, d: Deployment, n: VolumePlan, v: Volume, u: VolumePlan)
    requires ValidRequests(reqs) && InParts(l, share, Classify(reqs), d, n, v, u)
    ensures DistinctKeys(d.volumes)
  {
    var c := Classify(reqs);
    ClassesUnlike(reqs);
    var g := MonoGroup(share, c.mono, v);
    var all := c.normal + c.mono + c.unlimited;
    assert forall k :: 0 <= k < |d.volumes| ==> d.volumes[k].binding == all[k];
    PlanUnlike(d.volumes, all);
  }

  /** An entry of the origin is the match of its own binding. */
  lemma MatchesItself(origin: VolumePlan, k: nat)
    requires DistinctKeys(origin) && k < |origin|
    ensures Match(origin, origin[k].binding) == Some(origin[k])
  {
    var r := Match(origin, origin[k].binding);
    assert origin[k] in origin;
    var i :| 0 <= i < |origin| && origin[i] == r.value;
    assert i == k;
  }

  /** A part of the origin whose entries have their bindings' sizes is kept as it is. */
  lemma {:induction false} KeptPart(origin: VolumePlan, part: VolumePlan, reqs: seq<VolumeBinding>, at: nat)
    requires DistinctKeys(origin) && |part| == |reqs| && at + |part| <= |origin| && part == origin[at..at + |part|]
    requires forall k :: 0 <= k < |part| ==> part[k].binding == reqs[k]
    ensures Unmatched(reqs, origin) == [] && |Kept(reqs, origin)| == |reqs|
    ensures forall k :: 0 <= k < |reqs| ==> Kept(reqs, origin)[k] == Entry(reqs[k], part[k].device, reqs[k].size)
  {
    hide Match, DistinctKeys;
    if reqs != [] {
      var n := |reqs| - 1;
      assert part[..n] == origin[at..at + n];
      KeptPart(origin, part[..n], reqs[..n], at);
      MatchesItself(origin, at + n);
      assert origin[at + n] == part[n];
    }
  }

  lemma SizedKept(origin: VolumePlan, part: VolumePlan, reqs: seq<VolumeBinding>, at: nat)
    requires DistinctKeys(origin) && Sized(part, reqs) && at + |part| <= |origin| && part == origin[at..at + |part|]
    ensures Unmatched(reqs, origin) == [] && Kept(reqs, origin) == part
  {
    KeptPart(origin, part, reqs, at);
  }

  lemma GroupMatched(origin: VolumePlan, share: Share, mono: seq<VolumeBinding>, v: Volume, at: nat)
    requires DistinctKeys(origin) && at + |mono| <= |origin| && MonoGroup(share, mono, v) == origin[at..at + |mono|]
    ensures Unmatched(mono, origin) == [] && |Kept(mono, origin)| == |mono|
    ensures forall e :: e in Kept(mono, origin) ==> e.device == v.device
  {
    KeptPart(origin, MonoGroup(share, mono, v), mono, at);
    forall e | e in Kept(mono, origin) ensures e.device == v.device {
      var k :| 0 <= k < |mono| && Kept(mono, origin)[k] == e;
    }
  }

  /** What matching the origin's own requests yields. */
  ghost predicate MatchedAll(c: RequestClasses, origin: VolumePlan, n: VolumePlan, v: Volume, u: VolumePlan) {
    && Kept(c.normal, origin) == n && Kept(c.unlimited, origin) == u && Anew(c, origin) == []
    && (Kept(c.mono, origin) == [] <==> c.mono == [])
    && forall e :: e in Kept(c.mono, origin) ==> e.device == v.device
  }

  lemma AllKept(l: Topology, share: Share, reqs: seq<VolumeBinding>, d: Deployment, n: VolumePlan, v: Volume, u: VolumePlan)
    requires ValidRequests(reqs) && InParts(l, share, Classify(reqs), d, n, v, u)
    ensures MatchedAll(Classify(reqs), d.volumes, n, v, u)
  {
    var c := Classify(reqs);
    KeysDistinct(l, share, reqs, d, n, v, u);
    MatchedParts(share, c, n, v, u);
  }

  lemma MatchedParts(share: Share, c: RequestClasses, n: VolumePlan, v: Volume, u: VolumePlan)
    requires Sized(n, c.normal) && Sized(u, c.unlimited) && DistinctKeys(n + MonoGroup(share, c.mono, v) + u)
    ensures MatchedAll(c, n + MonoGroup(share, c.mono, v) + u, n, v, u)
  {
    var g := MonoGroup(share, c.mono, v);
    Slices(n, g, u);
    hide Sized, DistinctKeys, MonoGroup, Kept, Unmatched;
    SizedKept(n + g + u, n, c.normal, 0);
    GroupMatched(n + g + u, share, c.mono, v, |n|);
    SizedKept(n + g + u, u, c.unlimited, |n| + |g|);
  }

  lemma Slices(n: VolumePlan, g: VolumePlan, u: VolumePlan)
    ensures (n + g + u)[0..|n|] == n && (n + g + u)[|n|..|n| + |g|] == g && (n + g + u)[|n| + |g|..|n| + |g| + |u|] == u
  {
  }

  // ---- Releasing and charging again

  lemma CreditDebit(l: Topology, p: Pool, a: seq<Entry>, b: seq<Entry>)
    ensures Debit(l, Credit(l, p, a + b), a) == Credit(l, p, b)
  {
    var x, y := Debit(l, Credit(l, p, a + b), a), Credit(l, p, b);
    forall i | 0 <= i < |p.used| ensures x.used[i] == y.used[i] {
      BytesConcat(a, b, p.used[i].device);
    }
    forall i | 0 <= i < |p.unused| ensures x.unused[i] == y.unused[i] {
      BytesConcat(a, b, p.unused[i].device);
    }
    assert x.used == y.used && x.unused == y.unused;
    forall j | 0 <= j < |p.quotas| ensures x.quotas[j] == y.quotas[j] {
      forall m: Meter ensures x.quotas[j].Get(m) == y.quotas[j].Get(m) {
        QuotaConcat(l, a, b, j, m);
      }
      EqualByMeter(x.quotas[j], y.quotas[j]);
    }
  }

  /** The bytes that a plan's monopoly bindings hold are those of its group. */
  lemma GroupHeld(share: Share, c: RequestClasses, n: VolumePlan, v: Volume, u: VolumePlan)
    requires Sized(n, c.normal) && Sized(u, c.unlimited)
    requires (forall b :: b in c.normal || b in c.unlimited ==> !b.RequireScheduleMonopoly())
    requires (forall b :: b in c.mono ==> b.RequireScheduleMonopoly())
    ensures MonoHeld(n + MonoGroup(share, c.mono, v) + u) == if c.mono == [] then 0 else v.size
  {
    var g := MonoGroup(share, c.mono, v);
    SumConcat(MonoSize(), n + g, u);
    SumConcat(MonoSize(), n, g);
    forall e | e in n ensures MonoSize()(e) == 0 {
      var k :| 0 <= k < |n| && n[k] == e;
      assert c.normal[k] in c.normal;
    }
    forall e | e in u ensures MonoSize()(e) == 0 {
      var k :| 0 <= k < |u| && u[k] == e;
      assert c.unlimited[k] in c.unlimited;
    }
    SumZero(MonoSize(), n);
    SumZero(MonoSize(), u);
    if c.mono != [] {
      GroupBytes(share, c.mono, v, v.device);
      forall e | e in g ensures MonoSize()(e) == BytesAt(v.device)(e) {
        var k :| 0 <= k < |g| && g[k] == e;
        assert c.mono[k] in c.mono;
      }
      SumEqual(MonoSize(), BytesAt(v.device), g);
    }
  }

  /** What the parts of a plan hold is not negative in total. */
  lemma PartsHeld(l: Topology, share: Share, c: RequestClasses, d: Deployment, n: VolumePlan, v: Volume, u: VolumePlan)
    requires ValidClasses(c) && InParts(l, share, c, d, n, v, u) && v.size >= 0
    ensures var g := MonoGroup(share, c.mono, v);
      && Held(g + u) && Held(MountEntries(c.mount) + d.volumes)
      && forall device :: BytesOn(g + u, device) == if c.mono != [] && device == v.device then v.size else 0
  {
    var g, mounts := MonoGroup(share, c.mono, v), MountEntries(c.mount);
    forall device
      ensures BytesOn(g + u, device) == if c.mono != [] && device == v.device then v.size else 0
      ensures BytesOn(mounts + d.volumes, device) == BytesOn(n, device) + BytesOn(g + u, device) && BytesOn(n, device) >= 0
    {
      BytesConcat(g, u, device);
      SumZero(BytesAt(device), u);
      if c.mono != [] {
        GroupBytes(share, c.mono, v, device);
      }
      BytesConcat(mounts, d.volumes, device);
      BytesConcat(n + g, u, device);
      BytesConcat(n, g, device);
      SumZero(BytesAt(device), mounts);
      SizedHeld(n, c.normal, device);
    }
    BoundQuotas(n, c.normal);
    BoundQuotas(u, c.unlimited);
    BoundQuotas(g, c.mono);
    BoundQuotas(mounts, c.mount);
  }

  lemma SizedHeld(n: VolumePlan, reqs: seq<VolumeBinding>, device: string)
    requires Sized(n, reqs) && forall b :: b in reqs ==> b.size >= 0
    ensures BytesOn(n, device) >= 0
  {
    forall e | e in n ensures e.size >= 0 {
      var k :| 0 <= k < |n| && n[k] == e;
      assert reqs[k] in reqs;
    }
    SumNonNegative(BytesAt(device), n);
  }

  /** With the origin given back, charging its mounts and normal part again leaves what its group and pinned part held. */
  lemma ChargedAgain(l: Topology, share: Share, p: Pool, c: RequestClasses, d: Deployment, n: VolumePlan, v: Volume, u: VolumePlan)
    requires Good(l, p) && ValidClasses(c) && InParts(l, share, c, d, n, v, u) && v.size >= 0
    ensures var mounts := MountEntries(c.mount); var r := Credit(l, p, mounts + d.volumes); var left := MonoGroup(share, c.mono, v) + u;
      && Payable(l, r, mounts + n) && Debit(l, r, mounts + n) == Credit(l, p, left) && Good(l, Credit(l, p, left))
  {
    var mounts, left := MountEntries(c.mount), MonoGroup(share, c.mono, v) + u;
    PartsHeld(l, share, c, d, n, v, u);
    CreditGood(l, p, left);
    CreditDebit(l, p, mounts + n, left);
    assert mounts + n + left == mounts + d.volumes;
  }

  /** The group finds its whole volume again. */
  lemma GroupAgain(l: Topology, share: Share, p: Pool, c: RequestClasses, d: Deployment, n: VolumePlan, v: Volume, u: VolumePlan)
    requires Good(l, p) && ValidClasses(c) && InParts(l, share, c, d, n, v, u) && v.size >= 0 && c.mono != []
    requires OnHost(p, v.device) && forall w :: (w in p.used || w in p.unused) && w.device == v.device ==> w.size == 0
    requires MonoHeld(d.volumes) == v.size
    ensures KeptGroup(l, share, Credit(l, p, MonoGroup(share, c.mono, v) + u), c.mono, d.volumes, v.device) == Some(MonoGroup(share, c.mono, v))
  {
    var left := MonoGroup(share, c.mono, v) + u;
    var r := Credit(l, p, left);
    PartsHeld(l, share, c, d, n, v, u);
    VolumeAgain(l, p, left, v);
    QualifiedAgain(l, share, p, c.mono, v, u);
  }

  lemma VolumeAgain(l: Topology, p: Pool, left: seq<Entry>, v: Volume)
    requires OnHost(p, v.device) && BytesOn(left, v.device) == v.size
    requires forall w :: (w in p.used || w in p.unused) && w.device == v.device ==> w.size == 0
    ensures VolumeNamed(AllVolumes(Credit(l, p, left)), v.device) == Some(v)
  {
    var r := Credit(l, p, left);
    if Listed(p.used, v.device) {
      CreditListed(p.used, left, v.device);
    } else {
      CreditListed(p.unused, left, v.device);
    }
    forall w | w in AllVolumes(r) && w.device == v.device ensures w == v {
      CreditedFrom(p.used, left, w);
      CreditedFrom(p.unused, left, w);
    }
    assert Listed(AllVolumes(r), v.device) by {
      var w :| (w in r.used || w in r.unused) && w.device == v.device;
      assert w in AllVolumes(r);
    }
  }

  lemma CreditedFrom(vs: seq<Volume>, es: seq<Entry>, w: Volume)
    ensures w in CreditVolumes(vs, es) ==> exists x :: x in vs && x.device == w.device && w.size == x.size + BytesOn(es, w.device)
  {
    var c := CreditVolumes(vs, es);
    if w in c {
      var i :| 0 <= i < |c| && c[i] == w;
      assert vs[i] in vs;
    }
  }

  lemma CreditListed(vs: seq<Volume>, es: seq<Entry>, device: string)
    requires Listed(vs, device)
    ensures Listed(CreditVolumes(vs, es), device)
  {
    var v :| v in vs && v.device == device;
    var i :| 0 <= i < |vs| && vs[i] == v;
    assert CreditVolumes(vs, es)[i] in CreditVolumes(vs, es);
  }

  lemma QualifiedAgain(l: Topology, share: Share, p: Pool, mono: seq<VolumeBinding>, v: Volume, u: VolumePlan)
    requires Good(l, p) && ValidAll(mono) && mono != [] && (forall e :: e in u ==> e.binding.quota.IsZero())
    requires TotalBinding(mono).RequireIOPS() ==> l.Disk(v.device).Some?
    ensures Qualified(l, Credit(l, p, MonoGroup(share, mono, v) + u).quotas, v.device, TotalBinding(mono))
  {
    var g := MonoGroup(share, mono, v);
    var r := Credit(l, p, g + u);
    if l.Disk(v.device).Some? {
      var j := l.Disk(v.device).value;
      forall m: Meter ensures TotalBinding(mono).quota.Get(m) <= r.quotas[j].Get(m) {
        QuotaConcat(l, g, u, j, m);
        GroupQuota(l, share, mono, v, j, m);
        SumZero(MeterAt(l, j, m), u);
        MeterZero(p.quotas[j], m);
      }
      LeqByMeter(TotalBinding(mono).quota, r.quotas[j]);
    }
  }

  lemma OriginReleasable(l: Topology, share: Share, p: Pool, reqs: seq<VolumeBinding>, d: Deployment, n: VolumePlan,
      v: Volume, u: VolumePlan)
    requires ValidRequests(reqs) && InParts(l, share, Classify(reqs), d, n, v, u)
    requires forall e :: e in d.volumes ==> OnHost(p, e.device)
    ensures Releasable(l, p, d.volumes, reqs)
  {
    var c := Classify(reqs);
    ClassifyValid(reqs);
    var g := MonoGroup(share, c.mono, v);
    assert d.volumes == n + g + u && OnDisks(l, n) && OnDisks(l, MountEntries(c.mount));
    GroupOnDisks(l, share, c.mono, v);
    UnlimitedOnDisks(l, u, c.unlimited);
    hide InParts, Classify, ValidRequests, ValidClasses, MonoGroup, Sized;
    assert OnDisks(l, n + g + u);
  }

  lemma GroupOnDisks(l: Topology, share: Share, mono: seq<VolumeBinding>, v: Volume)
    requires ValidAll(mono) && (mono != [] && TotalBinding(mono).RequireIOPS() ==> l.Disk(v.device).Some?)
    ensures OnDisks(l, MonoGroup(share, mono, v))
  {
    var g := MonoGroup(share, mono, v);
    TotalValid(mono);
    forall e | e in g ensures e.binding.RequireIOPS() ==> l.Disk(e.device).Some? {
      var k :| 0 <= k < |g| && g[k] == e;
      assert mono[k] in mono;
    }
  }

  lemma UnlimitedOnDisks(l: Topology, u: VolumePlan, unlimited: seq<VolumeBinding>)
    requires Sized(u, unlimited) && forall b :: b in unlimited ==> b.quota.IsZero()
    ensures OnDisks(l, u)
  {
    forall e | e in u ensures !e.binding.RequireIOPS() {
      var k :| 0 <= k < |u| && u[k] == e;
      assert unlimited[k] in unlimited;
    }
  }

  /** The plan that reallocation returns: the same volumes, and a disk plan that holds the same. */
  ghost predicate SamePlan(l: Topology, c: RequestClasses, d: Deployment, r: Result<Deployment>) {
    r.Ok? && r.value.volumes == d.volumes && HoldsFor(l, r.value.disks, d.volumes + MountEntries(c.mount))
  }

  lemma RechargedAgain(l: Topology, share: Share, p: Pool, c: RequestClasses, d: Deployment, n: VolumePlan, v: Volume,
      u: VolumePlan, device: string)
    requires Good(l, p) && UniqueSlots(l.slots) && ValidClasses(c) && InParts(l, share, c, d, n, v, u) && v.size >= 0
    requires MatchedAll(c, d.volumes, n, v, u) && (c.mono != [] ==> device == v.device)
    requires Placed(l, share, Credit(l, p, MonoGroup(share, c.mono, v) + u), c, d.volumes, device) == Some(n + MonoGroup(share, c.mono, v))
    ensures SamePlan(l, c, d, Recharge(l, share, Credit(l, p, MountEntries(c.mount) + d.volumes), c, d.volumes, device))
  {
    var mounts, g := MountEntries(c.mount), MonoGroup(share, c.mono, v);
    ChargedAgain(l, share, p, c, d, n, v, u);
    PartsHeld(l, share, c, d, n, v, u);
    HoldsAgain(l, mounts, n, g, u);
  }

  /** The disk plan of the mounts and the placed parts holds what the whole plan draws. */
  lemma HoldsAgain(l: Topology, mounts: seq<Entry>, n: VolumePlan, g: VolumePlan, u: VolumePlan)
    requires UniqueSlots(l.slots) && forall e :: e in mounts || e in n || e in g ==> e.binding.quota.NonNegative()
    requires forall e :: e in u ==> e.binding.quota.IsZero()
    ensures HoldsFor(l, Added(DiskPlan(l, mounts), DiskPlan(l, n + g)), n + g + u + mounts)
  {
    var disks := Added(DiskPlan(l, mounts), DiskPlan(l, n + g));
    HoldsDiskPlan(l, mounts);
    HoldsDiskPlan(l, n + g);
    HoldsAdded(l, DiskPlan(l, mounts), mounts, DiskPlan(l, n + g), n + g);
    forall j, m | 0 <= j < |l.slots| ensures TotalQuota(disks, l.slots[j].device, m) == QuotaOn(l, n + g + u + mounts, j, m) {
      QuotaConcat(l, mounts, n + g, j, m);
      QuotaConcat(l, n + g + u, mounts, j, m);
      QuotaConcat(l, n + g, u, j, m);
      SumZero(MeterAt(l, j, m), u);
    }
  }

  /** Parts of plan d on host p: every device of the plan is there, and the group's volume has nothing free. */
  ghost predicate HeldBy(p: Pool, c: RequestClasses, d: Deployment, v: Volume) {
    && (forall e :: e in d.volumes ==> OnHost(p, e.device))
    && (c.mono != [] ==> forall w :: (w in p.used || w in p.unused) && w.device == v.device ==> w.size == 0)
  }

  lemma PlacedAgain(l: Topology, share: Share, p: Pool, reqs: seq<VolumeBinding>, d: Deployment, n: VolumePlan,
      v: Volume, u: VolumePlan, device: string)
    requires Good(l, p) && ValidRequests(reqs) && InParts(l, share, Classify(reqs), d, n, v, u) && v.size >= 0
    requires HeldBy(p, Classify(reqs), d, v) && (Classify(reqs).mono != [] ==> device == v.device)
    requires MatchedAll(Classify(reqs), d.volumes, n, v, u)
    ensures var c := Classify(reqs); var g := MonoGroup(share, c.mono, v);
      Placed(l, share, Credit(l, p, g + u), c, d.volumes, device) == Some(n + g)
  {
    var c := Classify(reqs);
    var g := MonoGroup(share, c.mono, v);
    ClassifyValid(reqs);
    ClassKinds(reqs);
    GroupHeld(share, c, n, v, u);
    if c.mono != [] {
      assert d.volumes[|n|] == g[0] && g[0] in d.volumes;
      GroupAgain(l, share, p, c, d, n, v, u);
    } else {
      assert n + g == n;
    }
  }

  lemma ClassKinds(reqs: seq<VolumeBinding>)
    ensures var c := Classify(reqs);
      && (forall b :: b in c.normal || b in c.unlimited ==> !b.RequireScheduleMonopoly())
      && (forall b :: b in c.mono ==> b.RequireScheduleMonopoly())
  {
    SortBySizeSorts(OfKind(reqs, Normal));
    SortBySizeSorts(OfKind(reqs, Mono));
  }

  /** On any host that holds it, a plan in parts is reallocated to itself. */
  lemma HeldIsFixed(l: Topology, share: Share, p: Pool, reqs: seq<VolumeBinding>, d: Deployment, n: VolumePlan,
      v: Volume, u: VolumePlan, device: string)
    requires Good(l, p) && UniqueSlots(l.slots) && ValidRequests(reqs) && NeedSchedule(reqs)
    requires InParts(l, share, Classify(reqs), d, n, v, u) && v.size >= 0
    requires HeldBy(p, Classify(reqs), d, v) && (Classify(reqs).mono != [] ==> device == v.device)
    ensures SamePlan(l, Classify(reqs), d, Reallocate(l, share, p, reqs, d.volumes, reqs, device))
  {
    ClassifyValid(reqs);
    AllKept(l, share, reqs, d, n, v, u);
    OriginReleasable(l, share, p, reqs, d, n, v, u);
    PlacedAgain(l, share, p, reqs, d, n, v, u, device);
    hide InParts, MatchedAll, Placed, Releasable, Recharge, Credit, Good, UniqueSlots, SamePlan, ValidClasses, ValidRequests;
    RechargedAgain(l, share, p, Classify(reqs), d, n, v, u, device);
  }

  /**
   * A workload with a plan from a fresh schedule, on any later host that still has its volumes and on which its group's
   * volume is full, in any order of its plan: reallocating it with the same requests gives every binding the same device and
   * size, and the same quota on every disk.
   */
  lemma ReallocatedToItself(l: Topology, share: Share, p0: Pool, reqs: seq<VolumeBinding>, maxCount: nat, i: nat,
      p: Pool, origin: VolumePlan) returns (v: Volume)
    requires Good(l, p0) && Good(l, p) && UniqueSlots(l.slots) && ValidRequests(reqs) && NeedSchedule(reqs)
    requires i < |Schedule(l, share, p0, reqs, maxCount, Planning)|
    requires multiset(origin) == multiset(Schedule(l, share, p0, reqs, maxCount, Planning)[i].volumes)
    ensures Classify(reqs).mono != [] ==> v in p0.unused && BytesOn(origin, v.device) >= v.size
    ensures forall e :: e in origin ==> OnHost(p0, e.device)
    ensures forall e :: e in Kept(Classify(reqs).mono, origin) ==> e.device == v.device
    ensures var d := Schedule(l, share, p0, reqs, maxCount, Planning)[i];
      && HoldsFor(l, d.disks, d.volumes + MountEntries(Classify(reqs).mount))
      && (HeldBy(p, Classify(reqs), d, v) ==> SamePlan(l, Classify(reqs), d, Reallocate(l, share, p, reqs, origin, reqs, v.device)))
  {
    var d := Schedule(l, share, p0, reqs, maxCount, Planning)[i];
    var n, u;
    n, v, u := PlanInParts(l, share, p0, reqs, maxCount, Planning, i);
    forall e ensures e in origin <==> e in d.volumes {
      assert e in origin <==> e in multiset(origin);
      assert e in d.volumes <==> e in multiset(d.volumes);
    }
    SelfReallocated(l, share, p0, reqs, d, n, v, u, p, origin);
  }

  lemma SelfReallocated(l: Topology, share: Share, p0: Pool, reqs: seq<VolumeBinding>, d: Deployment, n: VolumePlan,
      v: Volume, u: VolumePlan, p: Pool, origin: VolumePlan)
    requires Good(l, p0) && Good(l, p) && UniqueSlots(l.slots) && ValidRequests(reqs) && NeedSchedule(reqs)
    requires InParts(l, share, Classify(reqs), d, n, v, u) && (Classify(reqs).mono != [] ==> v in p0.unused)
    requires multiset(origin) == multiset(d.volumes)
    ensures Classify(reqs).mono != [] ==> BytesOn(origin, v.device) >= v.size
    ensures forall e :: e in Kept(Classify(reqs).mono, origin) ==> e.device == v.device
    ensures HoldsFor(l, d.disks, d.volumes + MountEntries(Classify(reqs).mount))
    ensures HeldBy(p, Classify(reqs), d, v) ==> SamePlan(l, Classify(reqs), d, Reallocate(l, share, p, reqs, origin, reqs, v.device))
  {
    var c := Classify(reqs);
    KeysDistinct(l, share, reqs, d, n, v, u);
    AllKept(l, share, reqs, d, n, v, u);
    KeptSame(c.mono, d.volumes, origin);
    OriginOrder(l, share, p, reqs, d.volumes, origin, reqs, v.device);
    if c.mono != [] {
      GroupBytesIn(l, share, reqs, d, n, v, u);
      SumPermutation(BytesAt(v.device), origin, d.volumes);
    }
    if HeldBy(p, c, d, v) {
      if c.mono != [] {
        HeldIsFixed(l, share, p, reqs, d, n, v, u, v.device);
      } else {
        var w := Volume(v.device, 0);
        assert MonoGroup(share, c.mono, w) == MonoGroup(share, c.mono, v);
        HeldIsFixed(l, share, p, reqs, d, n, w, u, v.device);
      }
    }
  }

  lemma GroupBytesIn(l: Topology, share: Share, reqs: seq<VolumeBinding>, d: Deployment, n: VolumePlan, v: Volume, u: VolumePlan)
    requires ValidRequests(reqs) && InParts(l, share, Classify(reqs), d, n, v, u) && Classify(reqs).mono != [] && v.size >= 0
    ensures BytesOn(d.volumes, v.device) >= v.size
  {
    ClassifyValid(reqs);
    var c := Classify(reqs);
    PartsBytes(share, c, n, v, u);
  }

  lemma PartsBytes(share: Share, c: RequestClasses, n: VolumePlan, v: Volume, u: VolumePlan)
    requires ValidClasses(c) && Sized(n, c.normal) && Sized(u, c.unlimited) && c.mono != []
    ensures BytesOn(n + MonoGroup(share, c.mono, v) + u, v.device) >= v.size
  {
    var g := MonoGroup(share, c.mono, v);
    BytesConcat(n + g, u, v.device);
    BytesConcat(n, g, v.device);
    GroupBytes(share, c.mono, v, v.device);
    SizedHeld(n, c.normal, v.device);
    SizedHeld(u, c.unlimited, v.device);
  }
}
