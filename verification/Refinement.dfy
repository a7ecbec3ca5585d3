/** Counting, bounded planning and the unbounded reference agree; an advertised capacity can be deployed. */
module Refinement {
  import opened Quantity
  import opened Bindings
  import opened Disks
  import opened Volumes
  import opened Charges
  import opened Repetition
  import opened Passes
  import opened Monopoly
  import opened Termination
  import opened Planner
  import opened Evaluations

  lemma MoveGood(l: Topology, p: Pool, k: nat)
    requires Good(l, p) && k < |p.unused|
    ensures Good(l, Move(p, k))
  {
    var m := Move(p, k);
    var v := p.unused[k];
    forall i, j | 0 <= i < j < |m.used| ensures Apart(m.used[i], m.used[j]) {
      if j < |p.used| {
        assert Apart(p.used[i], p.used[j]);
      } else {
        assert Apart(p.used[i], v);
      }
    }
    forall i, j | 0 <= i < j < |m.unused| ensures Apart(m.unused[i], m.unused[j]) {
      assert Apart(p.unused[if i < k then i else i + 1], p.unused[if j < k then j else j + 1]);
    }
    forall x, y | x in m.used && y in m.unused ensures Apart(x, y) {
      var j :| 0 <= j < |m.unused| && m.unused[j] == y;
      var j' := if j < k then j else j + 1;
      if x in p.used {
        assert Apart(x, p.unused[j']);
      } else {
        assert k < j' ==> Apart(v, p.unused[j']);
        assert j' < k ==> Apart(p.unused[j'], v);
      }
    }
    forall x | x in m.used || x in m.unused ensures x in p.used || x in p.unused {
    }
  }

  // ---- Counting is planning without the plans

  /** Both modes decide alike on one partition, and count alike. */
  lemma StepCounting(l: Topology, share: Share, p: Pool, a: Query, b: Query)
    requires a.mode.Planning? && b == a.(mode := Counting) && a.maxCount <= MAX_INT
    ensures Wanting(Evaluate(l, share, p, a), a) == Wanting(Evaluate(l, share, p, b), b)
    ensures PlanCount(Outcome(p, Evaluate(l, share, p, a)), a) == PlanCount(Outcome(p, Evaluate(l, share, p, b)), b)
  {
    var run := Evaluate(l, share, p, a).normal;
    assert run == Evaluate(l, share, p, b).normal;
    if a.classes.mono != [] {
      TakenPrefix(l, share, p, a.classes, run, MonoBound(a, p, |run.plans|));
      TakenPrefix(l, share, p, a.classes, run, MonoBound(b, p, |run.plans|));
    }
  }

  lemma {:induction false} PromoteCounting(l: Topology, share: Share, p: Pool, a: Query, b: Query)
    requires a.mode.Planning? && b == a.(mode := Counting) && a.maxCount <= MAX_INT
    ensures PlanCount(Promote(l, share, p, a), a) == PlanCount(Promote(l, share, p, b), b)
    decreases |p.unused|
  {
    StepCounting(l, share, p, a, b);
    var k := Candidate(p, a.classes);
    if Wanting(Evaluate(l, share, p, a), a) && k < |p.unused| {
      PromoteCounting(l, share, Move(p, k), a, b);
    }
  }

  /** GetVolumeCapacity is exactly the number of plans GetVolumePlans makes, though the two cut monopoly groups differently. */
  lemma CapacityIsPlanCount(l: Topology, share: Share, p: Pool, reqs: seq<VolumeBinding>, maxCount: nat)
    requires maxCount <= MAX_INT
    ensures Capacity(l, share, p, reqs, maxCount) == |Schedule(l, share, p, reqs, maxCount, Planning)|
  {
    if NeedSchedule(reqs) && !NoVolumes(p, Classify(reqs)) {
      PromoteCounting(l, share, p, QueryFor(p, reqs, maxCount, Planning), QueryFor(p, reqs, maxCount, Counting));
    }
  }

  // ---- Bounded planning refines the unbounded reference

  /** Of some quota that the normal or mount requests ask for, all disks together have less than the largest integer left. */
  ghost predicate Countable(p: Pool, c: RequestClasses) {
    exists m: Meter :: Asked(c.normal, c.mount, m) && FreeOn(p, m) < MAX_INT
  }

  lemma HasWorkOf(c: RequestClasses)
    requires ValidClasses(c) && !NoWork(c)
    ensures HasWork(c.normal, c.mount)
  {
    if c.normal != [] {
      assert c.normal[0] in c.normal;
    }
  }

  /** A host with no more volumes than plans wanted, whose passes can be counted when classes are coupled. */
  ghost predicate Small(l: Topology, p: Pool, q: Query) {
    && Good(l, p) && ValidClasses(q.classes) && q.mode.Planning?
    && |p.used| + |p.unused| <= q.maxCount <= MAX_INT
    && q.bound >= NormalBound(q.classes, q.maxCount, |p.unused|)
    && (Coupled(q.classes) ==> Countable(p, q.classes) && q.bound == MAX_INT)
    && (q.classes.mono == [] ==> q.bound == q.maxCount)
  }

  /** The reference query. */
  function Unbounded(q: Query): Query {
    q.(mode := Reference)
  }

  /** The unbounded run and the bounded run make the same first plans, and the monopoly groups take the same volumes. */
  lemma StepReference(l: Topology, share: Share, p: Pool, q: Query)
    requires Small(l, p, q) && (q.maxCount > 0 || q.classes.mono == [])
    ensures var e, f := Evaluate(l, share, p, q), Evaluate(l, share, p, Unbounded(q));
      && e.taken == f.taken
      && NormalCount(e) == (if NoWork(q.classes) then NormalCount(f) else Min(NormalCount(f), q.bound))
      && e.normal.plans == f.normal.plans[..NormalCount(e)]
      && (NoWork(q.classes) ==> NormalCount(f) == q.maxCount)
  {
    var c := q.classes;
    EvaluateNormal(l, share, p, q);
    WorthNonNegative(l, p);
    if c.mono != [] {
      SameTaken(l, share, p, q);
    }
    if NoWork(c) {
      NoWorkRuns(l, p, c, q.maxCount, q.bound, Worth(p) + 1);
    } else if q.bound >= 1 {
      hide Good, ValidClasses, NormalStage, Worth, MonoRun;
      RunsAgree(l, p, c, q.maxCount, q.bound);
    }
  }

  lemma NoWorkRuns(l: Topology, p: Pool, c: RequestClasses, maxCount: nat, b: int, b': int)
    requires NoWork(c)
    ensures NormalStage(l, p, c, maxCount, b) == NormalStage(l, p, c, maxCount, b')
    ensures |NormalStage(l, p, c, maxCount, b).plans| == maxCount
  {
  }

  lemma RunsAgree(l: Topology, p: Pool, c: RequestClasses, maxCount: nat, bound: int)
    requires Good(l, p) && ValidClasses(c) && !NoWork(c) && bound >= 1 && Worth(p) >= 0
    ensures var r, s := NormalStage(l, p, c, maxCount, bound), NormalStage(l, p, c, maxCount, Worth(p) + 1);
      && |r.plans| == Min(|s.plans|, bound) && r.plans == s.plans[..|r.plans|]
      && (|s.plans| < bound ==> r == s)
  {
    HasWorkOf(c);
    EnumerationEnds(l, p, c.normal, c.mount, Worth(p) + 1);
    if bound <= Worth(p) + 1 {
      StagesCompare(l, p, c, maxCount, bound, maxCount, Worth(p) + 1);
    } else {
      RepeatPrefix(l, p, PassOf(l, c.normal, c.mount), Worth(p) + 1, bound);
    }
  }

  /** Coupled, the bound is never met, so the runs are the same run. */
  lemma SameRunCoupled(l: Topology, p: Pool, q: Query)
    requires Small(l, p, q) && Coupled(q.classes)
    ensures NormalStage(l, p, q.classes, q.maxCount, q.bound) == NormalStage(l, p, q.classes, q.maxCount, Worth(p) + 1)
  {
    var c := q.classes;
    var once := PassOf(l, c.normal, c.mount);
    WorthNonNegative(l, p);
    HasWorkOf(c);
    EnumerationEnds(l, p, c.normal, c.mount, Worth(p) + 1);
    var m :| Asked(c.normal, c.mount, m) && FreeOn(p, m) < MAX_INT;
    MeterEnds(l, p, c.normal, c.mount, m, MAX_INT);
    TwoStopped(l, p, once, MAX_INT, Worth(p) + 1);
    hide Repeat, Worth, FreeOn, PassOf, Good, ValidClasses, Asked;
  }

  /** Two runs that end with a failed pass are the same run. */
  lemma TwoStopped(l: Topology, p: Pool, once: Pool -> Pass, a: nat, b: nat)
    requires Repeat(l, p, once, a).stopped && Repeat(l, p, once, b).stopped
    ensures Repeat(l, p, once, a) == Repeat(l, p, once, b)
  {
    if a <= b {
      RepeatPrefix(l, p, once, a, b);
    } else {
      RepeatPrefix(l, p, once, b, a);
    }
  }

  /** The quotas the monopoly groups see are the same, or do not matter to them. */
  lemma SameMonoAll(l: Topology, share: Share, p: Pool, q: Query)
    requires Small(l, p, q) && q.classes.mono != []
    ensures MonoAll(l, share, p, q.classes, NormalStage(l, p, q.classes, q.maxCount, q.bound))
         == MonoAll(l, share, p, q.classes, NormalStage(l, p, q.classes, q.maxCount, Worth(p) + 1))
  {
    if Coupled(q.classes) {
      SameRunCoupled(l, p, q);
    } else {
      UncoupledMono(l, share, p, q.classes, q.maxCount, q.bound, q.maxCount, Worth(p) + 1);
    }
  }

  lemma UncutTaken(l: Topology, share: Share, p: Pool, q: Query)
    requires q.classes.mono != [] && MonoBound(q, p, NormalCount(Evaluate(l, share, p, q))) >= |p.unused|
    ensures Evaluate(l, share, p, q).taken == MonoAll(l, share, p, q.classes, Evaluate(l, share, p, q).normal)
  {
    var e := Evaluate(l, share, p, q);
    TakenPrefix(l, share, p, q.classes, e.normal, MonoBound(q, p, |e.normal.plans|));
  }

  lemma NeverCut(q: Query, p: Pool, n: nat)
    requires |p.unused| <= q.maxCount <= MAX_INT && q.mode.Planning?
    ensures MonoBound(q, p, n) >= |p.unused| && MonoBound(Unbounded(q), p, n) >= |p.unused|
  {
  }

  lemma SameTaken(l: Topology, share: Share, p: Pool, q: Query)
    requires Small(l, p, q) && q.classes.mono != []
    ensures Evaluate(l, share, p, q).taken == Evaluate(l, share, p, Unbounded(q)).taken
  {
    assert |p.unused| <= q.maxCount <= MAX_INT && q.mode.Planning? && Unbounded(q).classes == q.classes;
    SameMonoAll(l, share, p, q);
    EvaluateNormal(l, share, p, q);
    hide *;
    NeverCut(q, p, NormalCount(Evaluate(l, share, p, q)));
    NeverCut(q, p, NormalCount(Evaluate(l, share, p, Unbounded(q))));
    UncutTaken(l, share, p, q);
    UncutTaken(l, share, p, Unbounded(q));
  }

  lemma EvaluateNormal(l: Topology, share: Share, p: Pool, q: Query)
    requires q.mode.Planning?
    ensures Evaluate(l, share, p, q).normal == NormalStage(l, p, q.classes, q.maxCount, q.bound)
    ensures Evaluate(l, share, p, Unbounded(q)).normal == NormalStage(l, p, q.classes, q.maxCount, Worth(p) + 1)
  {
    hide NormalStage, MonoRun, Worth;
  }

  lemma DecisionReference(l: Topology, share: Share, p: Pool, q: Query)
    requires Small(l, p, q) && (q.maxCount > 0 || q.classes.mono == [])
    ensures Wanting(Evaluate(l, share, p, q), q) == Wanting(Evaluate(l, share, p, Unbounded(q)), Unbounded(q))
    ensures PlanCount(Outcome(p, Evaluate(l, share, p, q)), q) == PlanCount(Outcome(p, Evaluate(l, share, p, Unbounded(q))), Unbounded(q))
  {
    StepReference(l, share, p, q);
  }

  lemma {:induction false} PromoteReference(l: Topology, share: Share, p: Pool, q: Query)
    requires Small(l, p, q) && (q.maxCount > 0 || q.classes.mono == [])
    ensures var o, r := Promote(l, share, p, q), Promote(l, share, p, Unbounded(q));
      o.pool == r.pool && PlanCount(o, q) == PlanCount(r, Unbounded(q)) && Small(l, o.pool, q)
    decreases |p.unused|
  {
    DecisionReference(l, share, p, q);
    var k := Candidate(p, q.classes);
    if Wanting(Evaluate(l, share, p, q), q) && k < |p.unused| {
      MoveGood(l, p, k);
      PromoteReference(l, share, Move(p, k), q);
    }
  }

  /** What makes the bounded scheduler follow the reference: at most maxCount volumes, and a countable run when classes are coupled. */
  ghost predicate Comparable(l: Topology, p: Pool, reqs: seq<VolumeBinding>, maxCount: nat) {
    && Good(l, p) && ValidRequests(reqs) && |p.used| + |p.unused| <= maxCount <= MAX_INT
    && (Coupled(Classify(reqs)) ==> Countable(p, Classify(reqs)))
  }

  /** On such a host bounded planning makes as many plans as the reference, and without unlimited bindings the same plans. */
  lemma BoundedRefinesReference(l: Topology, share: Share, p: Pool, reqs: seq<VolumeBinding>, maxCount: nat)
    requires Comparable(l, p, reqs, maxCount)
    ensures |Schedule(l, share, p, reqs, maxCount, Planning)| == |Schedule(l, share, p, reqs, maxCount, Reference)|
    ensures Classify(reqs).unlimited == [] ==>
      Schedule(l, share, p, reqs, maxCount, Planning) == Schedule(l, share, p, reqs, maxCount, Reference)
  {
    if NeedSchedule(reqs) && !NoVolumes(p, Classify(reqs)) {
      var q := QueryFor(p, reqs, maxCount, Planning);
      assert QueryFor(p, reqs, maxCount, Reference) == Unbounded(q);
      QueryIsSmall(l, p, reqs, maxCount);
      PromoteReference(l, share, p, q);
      if q.classes.unlimited == [] {
        AllPlansSame(l, share, p, q);
      }
    }
  }

  lemma AllPlansSame(l: Topology, share: Share, p: Pool, q: Query)
    requires Small(l, p, q) && (q.maxCount > 0 || q.classes.mono == []) && q.classes.unlimited == []
    requires PlanCount(Promote(l, share, p, q), q) == PlanCount(Promote(l, share, p, Unbounded(q)), Unbounded(q))
    ensures Plans(l, share, Promote(l, share, p, q), q) == Plans(l, share, Promote(l, share, p, Unbounded(q)), Unbounded(q))
  {
    var s, t := Plans(l, share, Promote(l, share, p, q), q), Plans(l, share, Promote(l, share, p, Unbounded(q)), Unbounded(q));
    hide Promote, Small;
    forall i | 0 <= i < |s| ensures s[i] == t[i] {
      SamePlans(l, share, p, q, i);
    }
  }

  lemma QueryIsSmall(l: Topology, p: Pool, reqs: seq<VolumeBinding>, maxCount: nat)
    requires Comparable(l, p, reqs, maxCount) && !NoVolumes(p, Classify(reqs))
    ensures var q := QueryFor(p, reqs, maxCount, Planning); Small(l, p, q) && (q.maxCount > 0 || q.classes.mono == [])
  {
    ClassifyValid(reqs);
  }

  lemma SamePlans(l: Topology, share: Share, p: Pool, q: Query, i: nat)
    requires Small(l, p, q) && (q.maxCount > 0 || q.classes.mono == []) && q.classes.unlimited == []
    requires i < PlanCount(Promote(l, share, p, q), q) && i < PlanCount(Promote(l, share, p, Unbounded(q)), Unbounded(q))
    ensures PlanAt(l, share, Promote(l, share, p, q), q, i) == PlanAt(l, share, Promote(l, share, p, Unbounded(q)), Unbounded(q), i)
  {
    PromoteReference(l, share, p, q);
    PromoteShape(l, share, p, q);
    PromoteShape(l, share, p, Unbounded(q));
    var o, r := Promote(l, share, p, q), Promote(l, share, p, Unbounded(q));
    StepReference(l, share, o.pool, q);
    assert o.eval.normal.plans[i] == r.eval.normal.plans[i];
  }
}
