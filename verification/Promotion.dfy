/** Which volumes promotion moves for a list of requests, and why no more plans are returned. */
module Promotion {
  import opened Quantity
  import opened Bindings
  import opened Disks
  import opened Volumes
  import opened Sums
  import opened Charges
  import opened Repetition
  import opened Passes
  import opened Monopoly
  import opened Planner
  import opened Refinement
  import opened Soundness
  import opened PlanContents

  // ---- What promotion moves

  /** s is the size of a smallest normal request, or the largest integer when there is none. */
  ghost predicate Smallest(reqs: seq<VolumeBinding>, s: int) {
    && (forall b :: b in reqs && AsksFor(b, Normal) ==> s <= b.size)
    && ((exists b :: b in reqs && AsksFor(b, Normal) && b.size == s)
        || (s == MAX_INT && forall b :: b in reqs ==> !AsksFor(b, Normal)))
  }

  lemma SmallestNormal(reqs: seq<VolumeBinding>)
    ensures Smallest(reqs, MinNormalSize(Classify(reqs)))
  {
    var c := Classify(reqs);
    ClassesApart(reqs);
    ClassesSorted(reqs);
    hide Classify, AsksFor;
    if c.normal != [] {
      assert c.normal[0] in c.normal;
      forall b | b in c.normal ensures c.normal[0].size <= b.size {
        var i :| 0 <= i < |c.normal| && c.normal[i] == b;
      }
    }
  }

  /** The host with its unused volumes from a to b moved behind the used ones. */
  function Promoted(p: Pool, a: nat, b: nat): Pool
    requires a <= b <= |p.unused|
  {
    Pool(p.used + p.unused[a..b], p.unused[..a] + p.unused[b..], p.quotas)
  }

  /** There are more monopoly groups than normal plans, and, unless plans are enumerated without bound, fewer of these than wanted. */
  ghost predicate GroupsAhead(l: Topology, share: Share, p: Pool, q: Query) {
    var e := Evaluate(l, share, p, q);
    && |e.normal.plans| < (if q.classes.mono == [] then q.maxCount else |e.taken|)
    && (q.mode.Reference? || |e.normal.plans| < q.maxCount)
  }

  /** Promotion moved the volumes from a to b, from the first one of size s on: each was needed, and another one is not, or there is none. */
  ghost predicate PromotesRun(l: Topology, share: Share, p: Pool, q: Query, s: int, a: nat, b: nat) {
    && a <= b <= |p.unused| && FirstFrom(p.unused, s, a)
    && (forall j :: a <= j < b ==> GroupsAhead(l, share, Promoted(p, a, j), q))
    && (b < |p.unused| ==> !GroupsAhead(l, share, Promoted(p, a, b), q))
  }

  lemma NonePromoted(p: Pool, a: nat)
    requires a <= |p.unused|
    ensures Promoted(p, a, a) == p
  {
    assert p.unused[..a] + p.unused[a..] == p.unused && p.used + p.unused[a..a] == p.used;
  }

  lemma PromotedNext(p: Pool, k: nat, j: nat)
    requires k <= j < |p.unused|
    ensures Promoted(Move(p, k), k, j) == Promoted(p, k, j + 1)
  {
    MoveSlices(p, k, j);
  }

  lemma {:induction false} PromotionRuns(l: Topology, share: Share, p: Pool, q: Query) returns (a: nat, b: nat)
    requires Sorted(p.unused)
    ensures PromotesRun(l, share, p, q, MinNormalSize(q.classes), a, b)
    ensures Promote(l, share, p, q) == Outcome(Promoted(p, a, b), Evaluate(l, share, Promoted(p, a, b), q))
    decreases |p.unused|
  {
    hide *;
    var k := Candidate(p, q.classes);
    CandidateIsFirst(p, q.classes);
    PromotionOnce(l, share, p, q);
    MovesWhileAhead(l, share, p, q);
    if Moves(l, share, p, q) {
      MoveShrinks(p, k);
      var c, d := PromotionRuns(l, share, Move(p, k), q);
      RunLonger(l, share, p, q, k, c, d);
      a, b := k, d + 1;
    } else {
      RunEmpty(l, share, p, q, k);
      a, b := k, k;
    }
  }

  lemma RunEmpty(l: Topology, share: Share, p: Pool, q: Query, k: nat)
    requires k <= |p.unused| && FirstFrom(p.unused, MinNormalSize(q.classes), k)
    requires k < |p.unused| ==> !GroupsAhead(l, share, p, q)
    ensures Promoted(p, k, k) == p && PromotesRun(l, share, p, q, MinNormalSize(q.classes), k, k)
  {
    NonePromoted(p, k);
    hide GroupsAhead, FirstFrom, Promoted;
  }

  lemma MovesWhileAhead(l: Topology, share: Share, p: Pool, q: Query)
    ensures Moves(l, share, p, q) <==> GroupsAhead(l, share, p, q) && Candidate(p, q.classes) < |p.unused|
  {
    hide Evaluate, Candidate;
  }

  lemma RunLonger(l: Topology, share: Share, p: Pool, q: Query, k: nat, c: nat, d: nat)
    requires k < |p.unused| && FirstFrom(p.unused, MinNormalSize(q.classes), k) && GroupsAhead(l, share, p, q)
    requires PromotesRun(l, share, Move(p, k), q, MinNormalSize(q.classes), c, d)
    ensures c == k && d < |p.unused| && Promoted(Move(p, k), c, d) == Promoted(p, k, d + 1)
    ensures PromotesRun(l, share, p, q, MinNormalSize(q.classes), k, d + 1)
  {
    hide FirstFrom, Promoted, GroupsAhead, Move, MinNormalSize;
    RunStart(p, k, MinNormalSize(q.classes), c);
    PromotedNext(p, k, d);
    forall j | k <= j < d + 1 ensures GroupsAhead(l, share, Promoted(p, k, j), q) {
      if j > k {
        PromotedNext(p, k, j - 1);
        assert GroupsAhead(l, share, Promoted(Move(p, k), k, j - 1), q);
      } else {
        NonePromoted(p, k);
      }
    }
  }

  /**
   * For every list of requests: promotion moves one run of the sorted unused volumes, from the first one at least as large as a
   * smallest normal request, as long as there are more groups than normal plans; the plans are those of the host it leaves.
   */
  lemma PromotionOfRequests(l: Topology, share: Share, p: Pool, reqs: seq<VolumeBinding>, maxCount: nat, mode: Mode)
      returns (s: int, a: nat, b: nat)
    requires Sorted(p.unused) && NeedSchedule(reqs) && !NoVolumes(p, Classify(reqs))
    ensures var q := QueryFor(p, reqs, maxCount, mode);
      && Smallest(reqs, s) && PromotesRun(l, share, p, q, s, a, b)
      && Schedule(l, share, p, reqs, maxCount, mode)
           == Plans(l, share, Outcome(Promoted(p, a, b), Evaluate(l, share, Promoted(p, a, b), q)), q)
  {
    s := MinNormalSize(Classify(reqs));
    SmallestNormal(reqs);
    var q := QueryFor(p, reqs, maxCount, mode);
    ScheduleIsPromoted(l, share, p, reqs, maxCount, mode);
    a, b := PromotionRuns(l, share, p, q);
  }

  // ---- Why there are no more plans

  /** The host made these normal plans one after the other, and cannot make another one. */
  ghost predicate NoPassLeft(l: Topology, p: Pool, c: RequestClasses, plans: seq<seq<Entry>>) {
    && (forall i :: 0 <= i < |plans| ==> Made(l, p, PassOf(l, c.normal, c.mount), plans, i))
    && !OnePass(l, Debit(l, p, Flat(plans)), c.normal, c.mount).ok
  }

  /** Of the unused volumes none that is not taken fits a group, with what the normal plans and all groups leave. */
  ghost predicate NoGroupLeft(l: Topology, share: Share, p: Pool, c: RequestClasses, run: Run, taken: seq<Volume>) {
    forall v :: v in p.unused && v !in taken ==>
      !Fits(l, DebitQuotas(l, QuotasAfter(l, p, run), Flat(Groups(share, c.mono, taken))), v, TotalBinding(c.mono))
  }

  lemma StageExhausted(l: Topology, p: Pool, c: RequestClasses, maxCount: nat, bound: int)
    requires |NormalStage(l, p, c, maxCount, bound).plans| < maxCount <= bound
    ensures NoPassLeft(l, p, c, NormalStage(l, p, c, maxCount, bound).plans)
  {
    var once := PassOf(l, c.normal, c.mount);
    RepeatStops(l, p, once, bound);
    RepeatPlans(l, p, once, bound);
    hide Repeat, Made, OnePass;
  }

  lemma FitsMore(l: Topology, qs: seq<Quota>, more: seq<Quota>, v: Volume, b: VolumeBinding)
    requires |qs| == |more| && forall j, m: Meter :: 0 <= j < |qs| ==> qs[j].Get(m) <= more[j].Get(m)
    ensures Fits(l, qs, v, b) ==> Fits(l, more, v, b)
  {
    match l.Disk(v.device)
    case None =>
    case Some(j) =>
      if j < |qs| {
        LeqByMeter(b.quota, qs[j]);
        LeqByMeter(b.quota, more[j]);
      }
  }

  lemma {:induction false} GroupBindings(share: Share, reqs: seq<VolumeBinding>, vs: seq<Volume>)
    ensures forall e :: e in Flat(Groups(share, reqs, vs)) ==> e.binding in reqs
  {
    if vs == [] {
      assert Groups(share, reqs, vs) == [];
    } else {
      var n := |vs| - 1;
      GroupBindings(share, reqs, vs[..n]);
      assert vs == vs[..n] + [vs[n]];
      GroupsAppend(share, reqs, vs[..n], vs[n]);
    }
  }

  /** More groups leave no more quota. */
  lemma GroupsShrink(l: Topology, share: Share, qs: seq<Quota>, reqs: seq<VolumeBinding>, vs: seq<Volume>, k: nat, j: nat, m: Meter)
    requires ValidAll(reqs) && k <= |vs| && j < |qs|
    ensures DebitQuotas(l, qs, Flat(Groups(share, reqs, vs)))[j].Get(m) <= DebitQuotas(l, qs, Flat(Groups(share, reqs, vs[..k])))[j].Get(m)
  {
    var rest := Flat(Groups(share, reqs, vs[k..]));
    assert Groups(share, reqs, vs) == Groups(share, reqs, vs[..k]) + Groups(share, reqs, vs[k..]);
    FlatConcat(Groups(share, reqs, vs[..k]), Groups(share, reqs, vs[k..]));
    QuotaConcat(l, Flat(Groups(share, reqs, vs[..k])), rest, j, m);
    GroupBindings(share, reqs, vs[k..]);
    hide Groups, Flat;
    forall e | e in rest ensures MeterAt(l, j, m)(e) >= 0 {
      MeterZero(e.binding.quota, m);
    }
    SumNonNegative(MeterAt(l, j, m), rest);
  }

  /** When fewer groups are taken than the bound allows, no other volume fits one. */
  lemma GroupsExhausted(l: Topology, share: Share, p: Pool, c: RequestClasses, run: Run, bound: nat)
    requires Distinct(p.unused) && ValidAll(c.mono)
    requires |MonoRun(l, share, p.unused, QuotasAfter(l, p, run), c.mono, |p.unused|, bound)| < bound
    ensures NoGroupLeft(l, share, p, c, run, MonoRun(l, share, p.unused, QuotasAfter(l, p, run), c.mono, |p.unused|, bound))
  {
    hide MonoRun, Fits, TotalBinding, QuotasAfter, DebitQuotas, Groups, Flat;
    var qs := QuotasAfter(l, p, run);
    var taken := MonoRun(l, share, p.unused, qs, c.mono, |p.unused|, bound);
    forall v | v in p.unused && v !in taken ensures !Fits(l, DebitQuotas(l, qs, Flat(Groups(share, c.mono, taken))), v, TotalBinding(c.mono)) {
      var i :| 0 <= i < |p.unused| && p.unused[i] == v;
      var k := MonoRunTurn(l, share, p.unused, qs, c.mono, bound, i);
      var less, more := DebitQuotas(l, qs, Flat(Groups(share, c.mono, taken))), DebitQuotas(l, qs, Flat(Groups(share, c.mono, taken[..k])));
      forall j, m: Meter | 0 <= j < |qs| ensures less[j].Get(m) <= more[j].Get(m) {
        GroupsShrink(l, share, qs, c.mono, taken, k, j, m);
      }
      FitsMore(l, less, more, v, TotalBinding(c.mono));
    }
  }

  /** What ended an evaluation with fewer plans than wanted. */
  ghost predicate Exhausted(l: Topology, share: Share, p: Pool, q: Query, n: nat) {
    var e := Evaluate(l, share, p, q);
    || (|e.normal.plans| == n && NoPassLeft(l, p, q.classes, e.normal.plans))
    || (q.classes.mono != [] && |e.taken| == n && NoGroupLeft(l, share, p, q.classes, e.normal, e.taken))
  }

  lemma EvaluationExhausted(l: Topology, share: Share, p: Pool, q: Query)
    requires Good(l, p) && ValidClasses(q.classes) && q.mode.Planning? && q.maxCount <= q.bound && q.maxCount <= MAX_INT
    requires PlanCount(Outcome(p, Evaluate(l, share, p, q)), q) < q.maxCount
    ensures Exhausted(l, share, p, q, PlanCount(Outcome(p, Evaluate(l, share, p, q)), q))
  {
    var e := Evaluate(l, share, p, q);
    EvaluateNormal(l, share, p, q);
    hide NoPassLeft, NoGroupLeft, NormalStage, MonoRun, QuotasAfter;
    if |e.normal.plans| < q.maxCount {
      StageExhausted(l, p, q.classes, q.maxCount, q.bound);
    }
    if q.classes.mono != [] && |e.taken| < q.maxCount {
      GroupsExhausted(l, share, p, q.classes, e.normal, MonoBound(q, p, |e.normal.plans|));
    }
  }

  /**
   * Fewer plans than wanted are returned only when the host, with the promoted volumes, can make no further normal plan after
   * as many, or has no further unused volume for a group after as many.
   */
  lemma CapacityExhausted(l: Topology, share: Share, p: Pool, reqs: seq<VolumeBinding>, maxCount: nat)
      returns (s: int, a: nat, b: nat)
    requires Good(l, p) && Sorted(p.unused) && ValidRequests(reqs) && NeedSchedule(reqs) && !NoVolumes(p, Classify(reqs))
    requires Capacity(l, share, p, reqs, maxCount) < maxCount <= MAX_INT
    ensures Smallest(reqs, s) && PromotesRun(l, share, p, QueryFor(p, reqs, maxCount, Planning), s, a, b)
    ensures Exhausted(l, share, Promoted(p, a, b), QueryFor(p, reqs, maxCount, Planning), Capacity(l, share, p, reqs, maxCount))
  {
    var q := QueryFor(p, reqs, maxCount, Planning);
    ClassifyValid(reqs);
    CapacityIsPlanCount(l, share, p, reqs, maxCount);
    ScheduleIsPromoted(l, share, p, reqs, maxCount, Planning);
    PromoteGood(l, share, p, q);
    BoundsEnough(p, reqs, maxCount);
    hide *;
    s := MinNormalSize(q.classes);
    SmallestNormal(reqs);
    a, b := PromotionRuns(l, share, p, q);
    EvaluationExhausted(l, share, Promoted(p, a, b), q);
  }

  lemma BoundsEnough(p: Pool, reqs: seq<VolumeBinding>, maxCount: nat)
    requires maxCount <= MAX_INT
    ensures var q := QueryFor(p, reqs, maxCount, Planning);
      q.maxCount == maxCount <= q.bound && q.mode.Planning? && q.classes == Classify(reqs)
  {
  }

  // ---- Where unlimited requests go

  /** What each volume of a host has left once all normal plans and all groups are taken off. */
  function LeftOver(share: Share, p: Pool, e: Evaluation, mono: seq<VolumeBinding>): (vs: seq<Volume>)
    ensures |vs| == |p.used| + |p.unused|
  {
    DebitVolumes(p.used + p.unused, Flat(e.normal.plans) + Flat(Groups(share, mono, e.taken)))
  }

  /** vs[x] is the first of the largest volumes. */
  ghost predicate FirstOfLargest(vs: seq<Volume>, x: nat) {
    && x < |vs| && (forall y :: 0 <= y < x ==> vs[y].size < vs[x].size)
    && forall y :: x <= y < |vs| ==> vs[y].size <= vs[x].size
  }

  lemma UnlimitedSchedules(reqs: seq<VolumeBinding>)
    requires Classify(reqs).unlimited != []
    ensures NeedSchedule(reqs) && forall p: Pool :: NoVolumes(p, Classify(reqs)) <==> p.used == [] && p.unused == []
  {
    var b := Classify(reqs).unlimited[0];
    assert b in OfKind(reqs, Unlimited) && b in reqs;
  }

  lemma PlanEnds(l: Topology, share: Share, p: Pool, q: Query, i: nat)
    requires Good(l, p) && ValidClasses(q.classes) && !NoVolumes(p, q.classes) && q.classes.unlimited != []
    requires i < PlanCount(Promote(l, share, p, q), q)
    ensures var o := Promote(l, share, p, q); var c := q.classes; var n := |c.normal| + |c.mono|; var es := PlanAt(l, share, o, q, i).volumes;
      && o.pool.used + o.pool.unused != []
      && |es| == n + |c.unlimited| && forall k :: 0 <= k < |c.unlimited| ==>
           es[n + k] == Entry(c.unlimited[k], FirstLargest(LeftOver(share, o.pool, o.eval, c.mono)).device, c.unlimited[k].size)
  {
    hide *;
    var o := Promote(l, share, p, q);
    OutcomeSettled(l, share, p, q);
    SettledEnds(l, share, p, o, q, i);
    PinnedIsFirst(share, o, q);
  }

  lemma SettledEnds(l: Topology, share: Share, p: Pool, o: Outcome, q: Query, i: nat)
    requires Settled(p, o, q) && i < PlanCount(o, q) && q.classes.unlimited != []
    ensures var c := q.classes; var n := |c.normal| + |c.mono|; var es := PlanAt(l, share, o, q, i).volumes;
      && o.pool.used + o.pool.unused != []
      && |es| == n + |c.unlimited|
      && forall k :: 0 <= k < |c.unlimited| ==> es[n + k] == Entry(c.unlimited[k], Pinned(share, o, q), c.unlimited[k].size)
  {
    hide Pinned, NormalPart, MonoGroup, WellShaped, WellMade, OnHost, Listed, Drawn;
    PlanPlaces(share, p, o, q, i);
    var n, g, u := NormalPart(Drawn(o, i), q.classes), GroupOf(share, o, q, i), UnlimitedPart(share, o, q);
    assert PlanAt(l, share, o, q, i).volumes == n + g + u by {
      PlanInThree(l, share, o, q, i);
    }
    assert |n| == |q.classes.normal| && |g| == |q.classes.mono|;
    hide PlanAt, GroupOf, Settled, Places;
    EndOf(n, g, u);
  }

  lemma PlanInThree(l: Topology, share: Share, o: Outcome, q: Query, i: nat)
    requires WellShaped(o, q) && i < PlanCount(o, q)
    ensures PlanAt(l, share, o, q, i).volumes
         == NormalPart(Drawn(o, i), q.classes) + GroupOf(share, o, q, i) + UnlimitedPart(share, o, q)
  {
  }

  lemma EndOf(n: VolumePlan, g: VolumePlan, u: VolumePlan)
    ensures |n + g + u| == |n| + |g| + |u| && forall k :: 0 <= k < |u| ==> (n + g + u)[|n| + |g| + k] == u[k]
  {
  }

  lemma PinnedIsFirst(share: Share, o: Outcome, q: Query)
    requires o.pool.used + o.pool.unused != []
    ensures Pinned(share, o, q) == FirstLargest(LeftOver(share, o.pool, o.eval, q.classes.mono)).device
  {
  }

  /**
   * In every plan all unlimited requests sit on the first of the volumes that are largest once every normal plan and every
   * group that some unused volume could hold is taken off, and not only those of the plans returned.
   */
  lemma UnlimitedPinned(l: Topology, share: Share, p: Pool, reqs: seq<VolumeBinding>, maxCount: nat, i: nat)
      returns (a: nat, b: nat, x: nat)
    requires Good(l, p) && Sorted(p.unused) && ValidRequests(reqs) && maxCount <= MAX_INT && |p.unused| < MAX_INT
    requires Classify(reqs).unlimited != [] && i < |Schedule(l, share, p, reqs, maxCount, Planning)|
    ensures a <= b <= |p.unused|
    ensures var c := Classify(reqs); var r := Promoted(p, a, b); var n := |c.normal| + |c.mono|;
      var e := Evaluate(l, share, r, QueryFor(p, reqs, maxCount, Planning)); var left := LeftOver(share, r, e, c.mono);
      var es := Schedule(l, share, p, reqs, maxCount, Planning)[i].volumes;
      && FirstOfLargest(left, x) && (c.mono != [] ==> NoGroupLeft(l, share, r, c, e.normal, e.taken))
      && |es| == n + |c.unlimited|
      && forall k :: 0 <= k < |c.unlimited| ==> es[n + k] == Entry(c.unlimited[k], left[x].device, c.unlimited[k].size)
  {
    hide *;
    UnlimitedSchedules(reqs);
    ClassifyValid(reqs);
    var q := QueryFor(p, reqs, maxCount, Planning);
    BoundsEnough(p, reqs, maxCount);
    SomePlan(l, share, p, reqs, maxCount, i);
    PromoteGood(l, share, p, q);
    a, b := PromotionRuns(l, share, p, q);
    x := PromotedPins(l, share, p, q, a, b, i);
  }

  lemma SomePlan(l: Topology, share: Share, p: Pool, reqs: seq<VolumeBinding>, maxCount: nat, i: nat)
    requires NeedSchedule(reqs) && i < |Schedule(l, share, p, reqs, maxCount, Planning)|
    ensures var q := QueryFor(p, reqs, maxCount, Planning); var o := Promote(l, share, p, q);
      && !NoVolumes(p, Classify(reqs)) && i < PlanCount(o, q)
      && Schedule(l, share, p, reqs, maxCount, Planning)[i] == PlanAt(l, share, o, q, i)
  {
    hide Promote, PlanAt, PlanCount;
  }

  lemma PromotedPins(l: Topology, share: Share, p: Pool, q: Query, a: nat, b: nat, i: nat) returns (x: nat)
    requires Good(l, p) && ValidClasses(q.classes) && !NoVolumes(p, q.classes) && q.classes.unlimited != [] && q.mode.Planning?
    requires |p.unused| < MAX_INT && PromotesRun(l, share, p, q, MinNormalSize(q.classes), a, b)
    requires Promote(l, share, p, q) == Outcome(Promoted(p, a, b), Evaluate(l, share, Promoted(p, a, b), q))
    requires i < PlanCount(Promote(l, share, p, q), q)
    ensures a <= b <= |p.unused|
    ensures var c := q.classes; var r := Promoted(p, a, b); var n := |c.normal| + |c.mono|;
      var e := Evaluate(l, share, r, q); var left := LeftOver(share, r, e, c.mono);
      var es := PlanAt(l, share, Promote(l, share, p, q), q, i).volumes;
      && FirstOfLargest(left, x) && (c.mono != [] ==> NoGroupLeft(l, share, r, c, e.normal, e.taken))
      && |es| == n + |c.unlimited|
      && forall k :: 0 <= k < |c.unlimited| ==> es[n + k] == Entry(c.unlimited[k], left[x].device, c.unlimited[k].size)
  {
    hide Good, ValidClasses, Promote, Evaluate, LeftOver, FirstLargest, NoGroupLeft, GroupsAhead, FirstFrom, PlanAt, PlanCount;
    PlanEnds(l, share, p, q, i);
    PromoteGood(l, share, p, q);
    var r := Promoted(p, a, b);
    x := FirstLargestAt(LeftOver(share, r, Evaluate(l, share, r, q), q.classes.mono));
    if q.classes.mono != [] {
      AllGroups(l, share, r, q);
    }
  }

  lemma AllGroups(l: Topology, share: Share, p: Pool, q: Query)
    requires Good(l, p) && ValidClasses(q.classes) && q.mode.Planning? && q.classes.mono != [] && q.classes.unlimited != []
    requires |p.unused| < MAX_INT
    ensures var e := Evaluate(l, share, p, q); NoGroupLeft(l, share, p, q.classes, e.normal, e.taken)
  {
    hide NoGroupLeft, NormalStage, QuotasAfter;
    GroupsExhausted(l, share, p, q.classes, Evaluate(l, share, p, q).normal, MAX_INT);
  }
}
