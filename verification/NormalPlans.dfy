/** The runs of normal plans that a host makes, as they relate to its state. */
module NormalPlans {
  import opened Bindings
  import opened Disks
  import opened Charges
  import opened Repetition
  import opened Passes
  import opened Reordering
  import opened MountPasses
  import opened Planner
  import opened Evaluations

  /** The volume plan and the disk plan of every pass of a run. */
  ghost predicate NormalPlansOf(l: Topology, plans: seq<seq<Entry>>, c: RequestClasses, volumePlans: seq<VolumePlan>,
      diskPlans: seq<seq<Disk>>) {
    && |volumePlans| == |diskPlans| == |plans|
    && (forall i :: 0 <= i < |plans| ==> volumePlans[i] == NormalPart(plans[i], c))
    && (forall i :: 0 <= i < |plans| ==> diskPlans[i] == Added(DiskPlan(l, volumePlans[i]), DiskPlan(l, MountEntries(c.mount))))
  }

  lemma {:induction false} FreeDiskPlan(l: Topology, es: seq<Entry>)
    requires Free(es)
    ensures DiskPlan(l, es) == []
  {
    if es != [] {
      assert es == es[..|es| - 1] + [es[|es| - 1]];
      FreeDiskPlan(l, es[..|es| - 1]);
    }
  }

  /** Plans of nothing but mount requests without quota are empty and change nothing. */
  lemma NoWorkPlans(l: Topology, p: Pool, c: RequestClasses, maxCount: nat, bound: int)
    requires Good(l, p) && ValidAll(c.mount) && NoWork(c)
    ensures var run := NormalStage(l, p, c, maxCount, bound);
      && NormalPlansOf(l, run.plans, c, seq(maxCount, i => []), seq(maxCount, i => []))
      && Alike(p, Debit(l, p, Spent(run)))
  {
    var es := MountEntries(c.mount);
    var fs := Flat(Copies(maxCount, es));
    MountEntriesFree(l, c.mount);
    FreeDiskPlan(l, es);
    FreeCopies(l, p.quotas, es, maxCount);
    forall device ensures BytesOn(fs, device) == 0 {
      CopiesNoBytes(maxCount, es, device);
    }
    VolumesUntouched(p.used, fs);
    assert fs + [] == fs;
  }

  /** Equal plans of nothing but mount requests. */
  lemma MountOnlyPlans(l: Topology, c: RequestClasses, plans: seq<seq<Entry>>)
    requires c.normal == []
    ensures NormalPlansOf(l, plans, c, seq(|plans|, i => []), seq(|plans|, i => DiskPlan(l, MountEntries(c.mount))))
  {
    NothingAdded(DiskPlan(l, MountEntries(c.mount)));
  }

  /** The normal stage without normal requests is the run of mount passes, or one charged pass when the bound is below one. */
  lemma MountOnlyStage(l: Topology, p: Pool, c: RequestClasses, maxCount: nat, bound: int)
    requires c.normal == [] && !NoWork(c)
    ensures var run := NormalStage(l, p, c, maxCount, bound);
      if bound >= 1 then run == Repeat(l, p, PassOf(l, [], c.mount), bound)
      else run.plans == [] && Spent(run) == CheckedPass(l, p, MountEntries(c.mount)).entries
  {
  }

  lemma {:induction false} NothingAdded(ds: seq<Disk>)
    ensures Missing([], ds) == ds && BumpAll([], ds) == [] && Added([], ds) == ds
  {
    if ds != [] {
      NothingAdded(ds[..|ds| - 1]);
      assert ds == ds[..|ds| - 1] + [ds[|ds| - 1]];
    }
  }

  /** The run so far: k successful passes, and a host like what they leave of p. */
  ghost predicate NormalSoFar(l: Topology, p: Pool, c: RequestClasses, k: nat, plans: seq<seq<Entry>>, q: Pool) {
    && Repeat(l, p, PassOf(l, c.normal, c.mount), k) == Run(plans, [], false)
    && Alike(q, Debit(l, p, Flat(plans)))
  }

  lemma NormalStart(l: Topology, p: Pool, c: RequestClasses)
    ensures NormalSoFar(l, p, c, 0, [], p)
  {
    DebitNil(l, p);
  }

  /** One more pass on the host as it is. */
  lemma NormalNext(l: Topology, p: Pool, c: RequestClasses, k: nat, plans: seq<seq<Entry>>, q: Pool, r: Pool)
    requires NormalSoFar(l, p, c, k, plans, q) && Alike(r, Debit(l, q, OnePass(l, q, c.normal, c.mount).entries))
    ensures var o := OnePass(l, q, c.normal, c.mount);
      && (o.ok ==> NormalSoFar(l, p, c, k + 1, plans + [o.entries], r))
      && (!o.ok ==> Repeat(l, p, PassOf(l, c.normal, c.mount), k + 1) == Run(plans, o.entries, true))
      && Alike(r, Debit(l, p, Flat(plans) + o.entries))
  {
    var o := OnePass(l, q, c.normal, c.mount);
    OnePassAlike(l, q, Debit(l, p, Flat(plans)), c.normal, c.mount);
    AlikeNext(l, p, Flat(plans), o.entries, q, r);
    FlatAppend(plans, o.entries);
    RepeatSpends(l, p, PassOf(l, c.normal, c.mount), k + 1);
  }

  lemma NormalPlansNext(l: Topology, plans: seq<seq<Entry>>, c: RequestClasses, volumePlans: seq<VolumePlan>, diskPlans: seq<seq<Disk>>,
      plan: seq<Entry>, volumePlan: VolumePlan, diskPlan: seq<Disk>)
    requires NormalPlansOf(l, plans, c, volumePlans, diskPlans)
    requires volumePlan == NormalPart(plan, c) && diskPlan == Added(DiskPlan(l, volumePlan), DiskPlan(l, MountEntries(c.mount)))
    ensures NormalPlansOf(l, plans + [plan], c, volumePlans + [volumePlan], diskPlans + [diskPlan])
  {
  }

  /** A run that fails before the bound, or meets it, is the normal stage. */
  lemma NormalStops(l: Topology, p: Pool, c: RequestClasses, maxCount: nat, bound: int, k: nat)
    requires c.normal != [] && (if bound < 1 then k == 0 else k <= bound)
    ensures var r := Repeat(l, p, PassOf(l, c.normal, c.mount), k);
      r.stopped || k == bound || bound < 1 ==> NormalStage(l, p, c, maxCount, bound) == r
  {
    if bound >= 1 {
      RepeatPrefix(l, p, PassOf(l, c.normal, c.mount), k, bound);
    }
  }
}
