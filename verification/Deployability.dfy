/** Whatever count a capacity query advertises, a deployment of that count, or of any smaller one, finds its plans. */
module Deployability {
  import opened Quantity
  import opened Bindings
  import opened Disks
  import opened Charges
  import opened Passes
  import opened Monopoly
  import opened Planner
  import opened Evaluations
  import opened Refinement

  /** The query of a deployment of a.maxCount plans beside the capacity query b of the same node. */
  ghost predicate Beside(a: Query, b: Query) {
    && a.mode.Planning? && b.mode.Planning? && a.classes == b.classes
    && 1 <= a.maxCount <= b.maxCount <= MAX_INT
    && a.maxCount <= a.bound <= b.bound && b.maxCount <= b.bound
    && (Coupled(a.classes) ==> a.bound == b.bound)
    && ValidClasses(a.classes)
  }

  /** Both evaluations see the same normal plans up to the smaller bound, and the same volumes for monopoly groups. */
  lemma StepBeside(l: Topology, share: Share, p: Pool, a: Query, b: Query)
    requires Good(l, p) && Beside(a, b)
    ensures var e, f := Evaluate(l, share, p, a), Evaluate(l, share, p, b); var n, n' := NormalCount(e), NormalCount(f);
      && (if NoWork(a.classes) then n == a.maxCount && n' == b.maxCount else n == Min(n', a.bound))
      && (a.classes.mono != [] ==> exists all: nat ::
           MonoCount(e, a) == Min(all, MonoBound(a, p, n)) && MonoCount(f, b) == Min(all, MonoBound(b, p, n')))
  {
    var c := a.classes;
    var e, f := Evaluate(l, share, p, a), Evaluate(l, share, p, b);
    EvaluateNormal(l, share, p, a);
    EvaluateNormal(l, share, p, b);
    if c.mono != [] {
      SameGroups(l, share, p, a, b);
      TakenPrefix(l, share, p, c, e.normal, MonoBound(a, p, |e.normal.plans|));
      TakenPrefix(l, share, p, c, f.normal, MonoBound(b, p, |f.normal.plans|));
      assert MonoCount(e, a) == Min(|MonoAll(l, share, p, c, e.normal)|, MonoBound(a, p, |e.normal.plans|));
      assert MonoCount(f, b) == Min(|MonoAll(l, share, p, c, e.normal)|, MonoBound(b, p, |f.normal.plans|));
    }
    if !NoWork(c) {
      hide Good, ValidClasses, NormalStage, MonoRun;
      StagesCompare(l, p, c, a.maxCount, a.bound, b.maxCount, b.bound);
    }
  }

  lemma SameGroups(l: Topology, share: Share, p: Pool, a: Query, b: Query)
    requires Good(l, p) && Beside(a, b) && a.classes.mono != []
    ensures MonoAll(l, share, p, a.classes, Evaluate(l, share, p, a).normal) == MonoAll(l, share, p, a.classes, Evaluate(l, share, p, b).normal)
  {
    EvaluateNormal(l, share, p, a);
    EvaluateNormal(l, share, p, b);
    if Coupled(a.classes) {
      StageIgnoresCount(l, p, a.classes, a.maxCount, b.maxCount, a.bound);
    } else {
      UncoupledMono(l, share, p, a.classes, a.maxCount, a.bound, b.maxCount, b.bound);
    }
  }

  lemma StageIgnoresCount(l: Topology, p: Pool, c: RequestClasses, m: nat, m': nat, bound: int)
    requires Coupled(c)
    ensures NormalStage(l, p, c, m, bound) == NormalStage(l, p, c, m', bound)
  {
  }

  /** The deployment promotes only where the capacity query does; where it stops, it is served or the capacity is too small. */
  lemma DecideBeside(l: Topology, share: Share, p: Pool, a: Query, b: Query)
    requires Good(l, p) && Beside(a, b)
    ensures var e, f := Evaluate(l, share, p, a), Evaluate(l, share, p, b);
      && (Wanting(e, a) ==> Wanting(f, b) && PlanCount(Outcome(p, f), b) < a.maxCount)
      && (Wanting(e, a) || PlanCount(Outcome(p, e), a) == a.maxCount || (!Wanting(f, b) && PlanCount(Outcome(p, f), b) < a.maxCount))
  {
    StepBeside(l, share, p, a, b);
    hide Good, Evaluate, NormalStage, ValidClasses;
  }

  lemma {:induction false} PromoteBeside(l: Topology, share: Share, p: Pool, a: Query, b: Query)
    requires Good(l, p) && Beside(a, b) && PlanCount(Promote(l, share, p, b), b) >= a.maxCount
    ensures PlanCount(Promote(l, share, p, a), a) == a.maxCount
    decreases |p.unused|
  {
    DecideBeside(l, share, p, a, b);
    var k := Candidate(p, a.classes);
    if Wanting(Evaluate(l, share, p, a), a) && k < |p.unused| {
      MoveGood(l, p, k);
      hide Good, Evaluate;
      PromoteBeside(l, share, Move(p, k), a, b);
    }
  }

  /** Every count up to the advertised capacity is deployable: GetVolumePlans asked for n plans returns n. */
  lemma CapacityIsDeployable(l: Topology, share: Share, p: Pool, reqs: seq<VolumeBinding>, maxCount: nat, n: nat)
    requires Good(l, p) && ValidRequests(reqs) && maxCount <= MAX_INT
    requires n <= Capacity(l, share, p, reqs, maxCount)
    ensures |Schedule(l, share, p, reqs, n, Planning)| == n
  {
    CapacityIsPlanCount(l, share, p, reqs, maxCount);
    if NeedSchedule(reqs) && !NoVolumes(p, Classify(reqs)) && n > 0 {
      ClassifyValid(reqs);
      var a, b := QueryFor(p, reqs, n, Planning), QueryFor(p, reqs, maxCount, Planning);
      assert Beside(a, b);
      PromoteBeside(l, share, p, a, b);
    }
  }
}
