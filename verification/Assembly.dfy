/** Putting the parts of the returned plans together. */
module Assembly {
  import opened Options
  import opened Bindings
  import opened Disks
  import opened Volumes
  import opened Charges
  import opened Repetition
  import opened Passes
  import opened Monopoly
  import opened MonoCharges
  import opened Planner
  import opened NormalPlans
  import opened Soundness
  import opened PlanContents
  import opened VolumePlans

  /** The plans of both kinds that one partition of the volumes allows, or only their counts. */
  datatype Evaluated = Evaluated(normalCapacity: nat, monoCapacity: nat,
    normalVolumes: seq<VolumePlan>, normalDisks: seq<seq<Disk>>, monoVolumes: seq<VolumePlan>, monoDisks: seq<seq<Disk>>)

  /** r holds the counts of evaluation e, and when planning its plans. */
  ghost predicate EvaluatedAs(l: Topology, share: Share, e: Evaluation, q: Query, r: Evaluated) {
    && r.normalCapacity == NormalCount(e) && r.monoCapacity == MonoCount(e, q)
    && (q.mode.Planning? ==>
      && NormalPlansOf(l, e.normal.plans, q.classes, r.normalVolumes, r.normalDisks)
      && MonoPlansOf(l, share, q, e.taken, r.monoVolumes, r.monoDisks))
  }

  ghost predicate MonoPlansOf(l: Topology, share: Share, q: Query, taken: seq<Volume>, plans: seq<VolumePlan>, disks: seq<seq<Disk>>) {
    if q.classes.mono == [] then plans == seq(q.maxCount, i => []) && disks == seq(q.maxCount, i => [])
    else PlansOf(l, share, q.classes.mono, taken, plans, disks)
  }

  // ---- Pinning unlimited bindings

  lemma {:induction false} FlatSameBytes(a: seq<seq<Entry>>, b: seq<seq<Entry>>, device: string)
    requires |a| == |b| && forall i :: 0 <= i < |a| ==> BytesOn(a[i], device) == BytesOn(b[i], device)
    ensures BytesOn(Flat(a), device) == BytesOn(Flat(b), device)
  {
    if a != [] {
      var n := |a| - 1;
      FlatSameBytes(a[..n], b[..n], device);
      BytesConcat(Flat(a[..n]), a[n], device);
      BytesConcat(Flat(b[..n]), b[n], device);
    }
  }

  lemma {:induction false} FlatEmpty(plans: seq<VolumePlan>)
    requires forall i :: 0 <= i < |plans| ==> plans[i] == []
    ensures Flat(plans) == []
  {
    if plans != [] {
      FlatEmpty(plans[..|plans| - 1]);
    }
  }

  /** Every unlimited request on the volume that is largest once the plans of both kinds are taken off. */
  function PinnedPlans(p: Pool, normalPlans: seq<VolumePlan>, monoPlans: seq<VolumePlan>, reqs: seq<VolumeBinding>,
      capacity: nat): Result<seq<VolumePlan>> {
    if reqs == [] then Ok(seq(capacity, i => []))
    else if p.used + p.unused == [] then Err(ErrInsufficientResource)
    else
      var device := FirstLargest(DebitVolumes(p.used + p.unused, Flat(normalPlans) + Flat(monoPlans))).device;
      Ok(seq(capacity, i => UnlimitedEntries(reqs, device)))
  }

  /** Every entry is on a volume of the host. */
  ghost predicate AllOnHost(p: Pool, plans: seq<VolumePlan>) {
    forall plan, e :: plan in plans && e in plan ==> OnHost(p, e.device)
  }

  /** The volume that is largest when the normal and monopoly plans are taken off is the pinned one. */
  lemma PinnedByParts(l: Topology, share: Share, o: Outcome, q: Query, r: Evaluated)
    requires WellShaped(o, q) && q.mode.Planning? && EvaluatedAs(l, share, o.eval, q, r)
    requires o.pool.used + o.pool.unused != []
    ensures Pinned(share, o, q) ==
      FirstLargest(DebitVolumes(o.pool.used + o.pool.unused, Flat(r.normalVolumes) + Flat(r.monoVolumes))).device
  {
    var c := q.classes;
    var plans := o.eval.normal.plans;
    var gs := Groups(share, c.mono, o.eval.taken);
    forall device ensures BytesOn(Flat(plans) + Flat(gs), device) == BytesOn(Flat(r.normalVolumes) + Flat(r.monoVolumes), device) {
      forall i | 0 <= i < |plans| ensures BytesOn(plans[i], device) == BytesOn(r.normalVolumes[i], device) {
        WellMadeCharges(plans[i], c, o.pool.used);
      }
      FlatSameBytes(plans, r.normalVolumes, device);
      if c.mono == [] {
        FlatEmpty(r.monoVolumes);
      }
      BytesConcat(Flat(plans), Flat(gs), device);
      BytesConcat(Flat(r.normalVolumes), Flat(r.monoVolumes), device);
    }
    SameDebit(o.pool.used + o.pool.unused, Flat(plans) + Flat(gs), Flat(r.normalVolumes) + Flat(r.monoVolumes));
  }

  lemma SameDebit(vs: seq<Volume>, a: seq<Entry>, b: seq<Entry>)
    requires forall device :: BytesOn(a, device) == BytesOn(b, device)
    ensures DebitVolumes(vs, a) == DebitVolumes(vs, b)
  {
    forall i | 0 <= i < |vs| ensures DebitVolumes(vs, a)[i] == DebitVolumes(vs, b)[i] {
    }
  }

  lemma PartsOnHost(l: Topology, share: Share, o: Outcome, q: Query, r: Evaluated)
    requires WellShaped(o, q) && q.mode.Planning? && EvaluatedAs(l, share, o.eval, q, r)
    requires forall v :: v in o.eval.taken ==> v in o.pool.unused
    ensures AllOnHost(o.pool, r.normalVolumes) && AllOnHost(o.pool, r.monoVolumes)
  {
    var c := q.classes;
    forall plan, e | plan in r.normalVolumes && e in plan ensures OnHost(o.pool, e.device) {
      var i :| 0 <= i < |r.normalVolumes| && r.normalVolumes[i] == plan;
      assert WellMade(o.eval.normal.plans[i], c, o.pool.used);
      var k :| 0 <= k < |plan| && plan[k] == e;
    }
    forall plan, e | plan in r.monoVolumes && e in plan ensures OnHost(o.pool, e.device) {
      var i :| 0 <= i < |r.monoVolumes| && r.monoVolumes[i] == plan;
      if c.mono != [] {
        assert o.eval.taken[i] in o.eval.taken;
        var k :| 0 <= k < |plan| && plan[k] == e;
      }
    }
  }

  // ---- One returned plan

  /** The entries of p carry the bindings of reqs, in order. */
  ghost predicate For(p: VolumePlan, reqs: seq<VolumeBinding>) {
    |p| == |reqs| && forall k :: 0 <= k < |p| ==> p[k].binding == reqs[k]
  }

  lemma UnrelatedParts(n: VolumePlan, g: VolumePlan, u: VolumePlan, c: RequestClasses)
    requires Unlike(c.normal + c.mono + c.unlimited) && For(n, c.normal) && For(g, c.mono) && For(u, c.unlimited)
    ensures Unrelated(n, g) && Unrelated(n + g, u)
  {
    PlanUnlike(n + g + u, c.normal + c.mono + c.unlimited);
    var front: VolumePlan := n + g;
    forall a, b | 0 <= a < b < |front| ensures front[a].binding.destination != front[b].binding.destination {
      assert front[a] == (front + u)[a] && front[b] == (front + u)[b];
    }
  }

  /** The parts of plan i, merged by destination, are plan i. */
  lemma PartsMake(l: Topology, share: Share, o: Outcome, q: Query, r: Evaluated, i: nat)
    requires WellShaped(o, q) && q.mode.Planning? && EvaluatedAs(l, share, o.eval, q, r) && i < PlanCount(o, q)
    requires Unlike(q.classes.normal + q.classes.mono + q.classes.unlimited)
    ensures i < |r.normalVolumes| && i < |r.monoVolumes| && i < |r.normalDisks| && i < |r.monoDisks|
    ensures Unrelated(r.normalVolumes[i], r.monoVolumes[i])
    ensures Unrelated(r.normalVolumes[i] + r.monoVolumes[i], UnlimitedPart(share, o, q))
    ensures PlanAt(l, share, o, q, i)
         == Deployment(r.normalVolumes[i] + r.monoVolumes[i] + UnlimitedPart(share, o, q), Added(r.normalDisks[i], r.monoDisks[i]))
  {
    var c := q.classes;
    assert WellMade(Drawn(o, i), c, o.pool.used);
    assert r.normalVolumes[i] == NormalPart(Drawn(o, i), c);
    NormalPartFor(Drawn(o, i), c, o.pool.used);
    MonoPartFor(l, share, q, o.eval.taken, r.monoVolumes, r.monoDisks, i);
    assert For(UnlimitedPart(share, o, q), c.unlimited);
    hide WellShaped, WellMade, For, Unlike, NormalPart, Unrelated;
    hide MonoPlansOf, Added, DiskPlan, MonoGroup, MonoDisks, Pinned, DistinctDestinations;
    UnrelatedParts(r.normalVolumes[i], r.monoVolumes[i], UnlimitedPart(share, o, q), c);
  }

  lemma NormalPartFor(plan: seq<Entry>, c: RequestClasses, used: seq<Volume>)
    requires WellMade(plan, c, used)
    ensures For(NormalPart(plan, c), c.normal)
  {
  }

  lemma MonoPartFor(l: Topology, share: Share, q: Query, taken: seq<Volume>, plans: seq<VolumePlan>, disks: seq<seq<Disk>>, i: nat)
    requires MonoPlansOf(l, share, q, taken, plans, disks) && i < if q.classes.mono == [] then q.maxCount else |taken|
    ensures i < |plans| && i < |disks| && For(plans[i], q.classes.mono)
    ensures plans[i] == if q.classes.mono == [] then [] else MonoGroup(share, q.classes.mono, taken[i])
    ensures disks[i] == if q.classes.mono == [] then [] else MonoDisks(l, q.classes.mono, taken[i])
  {
  }

  /** With some volume on the host pinning succeeds, and pins what the plans of the outcome pin. */
  lemma Pinning(l: Topology, share: Share, o: Outcome, q: Query, r: Evaluated, count: nat)
    requires WellShaped(o, q) && q.mode.Planning? && EvaluatedAs(l, share, o.eval, q, r)
    requires q.classes.unlimited != [] ==> o.pool.used + o.pool.unused != []
    ensures var u := PinnedPlans(o.pool, r.normalVolumes, r.monoVolumes, q.classes.unlimited, count);
      u.Ok? && |u.value| == count && forall i :: 0 <= i < count ==> u.value[i] == UnlimitedPart(share, o, q)
  {
    hide WellShaped, EvaluatedAs, Pinned, FirstLargest, Flat, ValidClasses, DebitVolumes;
    if q.classes.unlimited != [] {
      PinnedByParts(l, share, o, q, r);
    }
  }

  /** What the end of promotion provides to putting the plans together. */
  lemma Ready(l: Topology, share: Share, p: Pool, o: Outcome, q: Query, r: Evaluated, count: nat)
    requires Good(l, p) && ValidClasses(q.classes) && !NoVolumes(p, q.classes) && q.mode.Planning?
    requires o == Promote(l, share, p, q) && EvaluatedAs(l, share, o.eval, q, r)
    ensures WellShaped(o, q) && AllOnHost(o.pool, r.normalVolumes) && AllOnHost(o.pool, r.monoVolumes)
    ensures var u := PinnedPlans(o.pool, r.normalVolumes, r.monoVolumes, q.classes.unlimited, count);
      u.Ok? && |u.value| == count && forall i :: 0 <= i < count ==> u.value[i] == UnlimitedPart(share, o, q)
  {
    PromoteShape(l, share, p, q);
    PromoteGood(l, share, p, q);
    EvaluationShape(l, share, o.pool, q);
    TakenAreUnused(l, share, o.pool, q);
    hide WellShaped, EvaluatedAs, PinnedPlans, AllOnHost, Promote, Evaluate;
    PartsOnHost(l, share, o, q, r);
    assert q.classes.unlimited != [] ==> |o.pool.used + o.pool.unused| > 0;
    Pinning(l, share, o, q, r, count);
  }
}
