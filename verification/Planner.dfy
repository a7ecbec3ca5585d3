/** The scheduler as a function: evaluate both capacities, promote unused volumes while that helps, assemble the plans. */
module Planner {
  import opened Quantity
  import opened Bindings
  import opened Disks
  import opened Volumes
  import opened Charges
  import opened Repetition
  import opened Passes
  import opened MountPasses
  import opened Monopoly
  import opened Termination

  /** Materialising plans, counting them, or enumerating them without any bound. */
  datatype Mode = Planning | Counting | Reference

  /** What the scheduler is asked: request classes, the largest useful count, and the bound on normal plans. */
  datatype Query = Query(classes: RequestClasses, maxCount: nat, mode: Mode, bound: nat)

  /** Monopoly groups can inspect quota that normal or mount bindings draw. */
  predicate Coupled(c: RequestClasses) {
    c.mono != [] && AnyRequireIOPS(c.mono) && (AnyRequireIOPS(c.normal) || AnyRequireIOPS(c.mount))
  }

  /** host.normalBound */
  function NormalBound(c: RequestClasses, maxCount: nat, unused: nat): nat {
    if c.mono == [] then maxCount
    else if !Coupled(c) then Max(maxCount, unused + 1)
    else MAX_INT
  }

  function StageBound(q: Query, p: Pool): int {
    if q.mode.Reference? then Worth(p) + 1 else q.bound
  }

  function MonoBound(q: Query, p: Pool, normalCount: nat): nat {
    match q.mode
    case Planning => if q.classes.unlimited == [] then Max(q.maxCount, normalCount + 1) else MAX_INT
    case Counting => Max(q.maxCount, normalCount + 1)
    case Reference => |p.unused|
  }

  predicate NoWork(c: RequestClasses) {
    c.normal == [] && !AnyRequireIOPS(c.mount)
  }

  /** The charges of the normal plans; mount-only plans charge one pass even when the bound is below one. */
  ghost function NormalStage(l: Topology, p: Pool, c: RequestClasses, maxCount: nat, bound: int): Run {
    if NoWork(c) then Run(Copies(maxCount, MountEntries(c.mount)), [], false)
    else if bound >= 1 then Repeat(l, p, PassOf(l, c.normal, c.mount), bound)
    else if c.normal == [] then Run([], CheckedPass(l, p, MountEntries(c.mount)).entries, true)
    else Run([], [], false)
  }

  function QuotasAfter(l: Topology, p: Pool, run: Run): seq<Quota> {
    Debit(l, p, Spent(run)).quotas
  }

  /** The normal run and the volumes taken by monopoly groups. */
  datatype Evaluation = Evaluation(normal: Run, taken: seq<Volume>)

  ghost function Evaluate(l: Topology, share: Share, p: Pool, q: Query): Evaluation {
    var run := NormalStage(l, p, q.classes, q.maxCount, StageBound(q, p));
    Evaluation(run, MonoRun(l, share, p.unused, QuotasAfter(l, p, run), q.classes.mono, |p.unused|,
      if q.classes.mono == [] then 0 else MonoBound(q, p, |run.plans|)))
  }

  function NormalCount(e: Evaluation): nat {
    |e.normal.plans|
  }

  function MonoCount(e: Evaluation, q: Query): nat {
    if q.classes.mono == [] then q.maxCount else |e.taken|
  }

  /** Whether another unused volume should be tried as a used one. */
  predicate Wanting(e: Evaluation, q: Query) {
    MonoCount(e, q) > NormalCount(e) && (q.mode.Reference? || NormalCount(e) < q.maxCount)
  }

  /** slices.BinarySearchFunc by size, whether or not the list is sorted. */
  function Search(vs: seq<Volume>, target: int, lo: nat, hi: nat): (r: nat)
    requires lo <= hi <= |vs|
    ensures lo <= r <= hi
    decreases hi - lo
  {
    if lo == hi then lo else
      var mid := (lo + hi) / 2;
      if vs[mid].size < target then Search(vs, target, mid + 1, hi) else Search(vs, target, lo, mid)
  }

  function MinNormalSize(c: RequestClasses): int {
    if c.normal == [] then MAX_INT else c.normal[0].size
  }

  function Candidate(p: Pool, c: RequestClasses): (k: nat)
    ensures k <= |p.unused|
  {
    Search(p.unused, MinNormalSize(c), 0, |p.unused|)
  }

  function Move(p: Pool, k: nat): Pool
    requires k < |p.unused|
  {
    Pool(p.used + [p.unused[k]], p.unused[..k] + p.unused[k + 1..], p.quotas)
  }

  /** The final partition and its evaluation. */
  datatype Outcome = Outcome(pool: Pool, eval: Evaluation)

  ghost function Promote(l: Topology, share: Share, p: Pool, q: Query): Outcome
    decreases |p.unused|
  {
    var e := Evaluate(l, share, p, q);
    var k := Candidate(p, q.classes);
    if Wanting(e, q) && k < |p.unused| then Promote(l, share, Move(p, k), q) else Outcome(p, e)
  }

  function PlanCount(o: Outcome, q: Query): nat {
    Min(Min(NormalCount(o.eval), MonoCount(o.eval, q)), q.maxCount)
  }

  /** The first volume of the largest size. */
  function FirstLargest(vs: seq<Volume>): (v: Volume)
    requires vs != []
    ensures v in vs && forall w :: w in vs ==> w.size <= v.size
  {
    if |vs| == 1 then vs[0] else
      var m := FirstLargest(vs[..|vs| - 1]);
      assert vs == vs[..|vs| - 1] + [vs[|vs| - 1]];
      if vs[|vs| - 1].size > m.size then vs[|vs| - 1] else m
  }

  lemma FirstAlone(vs: seq<Volume>)
    requires vs != []
    ensures FirstLargest(vs[..1]) == vs[0]
  {
  }

  /** One more volume is the first largest only when it is larger than all before it. */
  lemma LargestNext(vs: seq<Volume>, i: nat)
    requires 0 < i < |vs|
    ensures FirstLargest(vs[..i + 1]) == if vs[i].size > FirstLargest(vs[..i]).size then vs[i] else FirstLargest(vs[..i])
  {
    assert vs[..i + 1][..i] == vs[..i];
  }

  /** It is larger than every volume before it and no smaller than any after it. */
  lemma {:induction false} FirstLargestAt(vs: seq<Volume>) returns (x: nat)
    requires vs != []
    ensures x < |vs| && FirstLargest(vs) == vs[x]
    ensures (forall y :: 0 <= y < x ==> vs[y].size < vs[x].size) && forall y :: x <= y < |vs| ==> vs[y].size <= vs[x].size
  {
    hide FirstLargest;
    var n := |vs| - 1;
    assert vs[..|vs|] == vs;
    if n == 0 {
      FirstAlone(vs);
      x := 0;
    } else {
      LargestNext(vs, n);
      x := FirstLargestAt(vs[..n]);
      if vs[n].size > vs[x].size {
        x := n;
      }
    }
  }

  /** The volume unlimited bindings are pinned to: the largest after all plans of both kinds. */
  function Pinned(share: Share, o: Outcome, q: Query): (device: string) {
    if o.pool.used + o.pool.unused == [] then "" else
      FirstLargest(DebitVolumes(o.pool.used + o.pool.unused,
        Flat(o.eval.normal.plans) + Flat(Groups(share, q.classes.mono, o.eval.taken)))).device
  }

  /** The entries of the normal requests, without those of the mount requests behind them. */
  function NormalPart(plan: seq<Entry>, c: RequestClasses): seq<Entry> {
    if |c.normal| <= |plan| then plan[..|c.normal|] else plan
  }

  function UnlimitedEntries(reqs: seq<VolumeBinding>, device: string): (es: seq<Entry>)
    ensures |es| == |reqs|
  {
    seq(|reqs|, i requires 0 <= i < |reqs| => Entry(reqs[i], device, reqs[i].size))
  }

  /** A volume plan and the disk plan that goes with it. */
  datatype Deployment = Deployment(volumes: VolumePlan, disks: seq<Disk>)

  /** Plan i of an outcome. */
  function PlanAt(l: Topology, share: Share, o: Outcome, q: Query, i: nat): Deployment
    requires i < PlanCount(o, q)
  {
    var c := q.classes;
    var normal := NormalPart(o.eval.normal.plans[i], c);
    var mono := if c.mono == [] then [] else MonoGroup(share, c.mono, o.eval.taken[i]);
    var unlimited := if c.unlimited == [] then [] else UnlimitedEntries(c.unlimited, Pinned(share, o, q));
    Deployment(normal + mono + unlimited,
      Added(Added(DiskPlan(l, normal), DiskPlan(l, MountEntries(c.mount))), if c.mono == [] then [] else MonoDisks(l, c.mono, o.eval.taken[i])))
  }

  function Plans(l: Topology, share: Share, o: Outcome, q: Query): (ds: seq<Deployment>)
    ensures |ds| == PlanCount(o, q)
  {
    seq(PlanCount(o, q), i requires 0 <= i < PlanCount(o, q) => PlanAt(l, share, o, q, i))
  }

  function QueryFor(p: Pool, reqs: seq<VolumeBinding>, maxCount: nat, mode: Mode): Query {
    var c := Classify(reqs);
    Query(c, maxCount, mode, NormalBound(c, maxCount, |p.unused|))
  }

  /** Some binding needs a volume and there is none. */
  predicate NoVolumes(p: Pool, c: RequestClasses) {
    |c.normal| + |c.mono| + |c.unlimited| > 0 && |p.unused| + |p.used| == 0
  }

  /** What promotion keeps: the same volumes in total, and the evaluation of the final partition. */
  lemma {:induction false} PromoteShape(l: Topology, share: Share, p: Pool, q: Query)
    ensures var o := Promote(l, share, p, q);
      && o.eval == Evaluate(l, share, o.pool, q) && o.pool.quotas == p.quotas
      && multiset(o.pool.used + o.pool.unused) == multiset(p.used + p.unused)
      && |o.pool.used + o.pool.unused| == |p.used + p.unused|
      && |o.pool.unused| <= |p.unused|
    decreases |p.unused|
  {
    var k := Candidate(p, q.classes);
    if Wanting(Evaluate(l, share, p, q), q) && k < |p.unused| {
      MoveKeeps(p, k);
      PromoteShape(l, share, Move(p, k), q);
    }
  }

  lemma MoveKeeps(p: Pool, k: nat)
    requires k < |p.unused|
    ensures multiset(Move(p, k).used + Move(p, k).unused) == multiset(p.used + p.unused)
  {
    assert p.unused == p.unused[..k] + [p.unused[k]] + p.unused[k + 1..];
    var m := Move(p, k);
    assert multiset(m.used + m.unused) == multiset(p.used) + multiset{p.unused[k]} + multiset(p.unused[..k]) + multiset(p.unused[k + 1..]);
    assert multiset(p.used + p.unused) == multiset(p.used) + multiset(p.unused[..k]) + multiset{p.unused[k]} + multiset(p.unused[k + 1..]);
  }

  /** GetVolumePlans, GetVolumeCapacity's plans, or the unbounded reference, on a host. */
  ghost function Schedule(l: Topology, share: Share, p: Pool, reqs: seq<VolumeBinding>, maxCount: nat, mode: Mode): seq<Deployment> {
    if !NeedSchedule(reqs) then seq(maxCount, i => Deployment([], []))
    else if NoVolumes(p, Classify(reqs)) then []
    else
      var q := QueryFor(p, reqs, maxCount, mode);
      Plans(l, share, Promote(l, share, p, q), q)
  }

  /** GetVolumeCapacity: the count without the plans. */
  ghost function Capacity(l: Topology, share: Share, p: Pool, reqs: seq<VolumeBinding>, maxCount: nat): nat {
    if !NeedSchedule(reqs) then maxCount
    else if NoVolumes(p, Classify(reqs)) then 0
    else
      var q := QueryFor(p, reqs, maxCount, Counting);
      PlanCount(Promote(l, share, p, q), q)
  }
}
