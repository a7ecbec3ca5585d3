/** Whole runs of one node: what the scheduler proposes is always accepted, and every live workload can be given back. */
module Runs {
  import opened Options
  import opened Bindings
  import opened Disks
  import opened Sums
  import opened Charges
  import opened Monopoly
  import opened Planner
  import opened Affinity
  import opened Reallocation
  import opened Fixpoint
  import opened Resources
  import opened HostRecords
  import opened Ledgers
  import opened Deployments
  import opened Reallocs
  import opened Picks
  import opened Merging
  import opened LivePlans

  /** The invariant of a run: os are the live workloads with their requests. */
  ghost predicate Sound(l: Ledger, os: seq<Origin>) {
    && Balanced(l) && Records.RecordValid(l.capacity, l.usage) && Records.SortDisks(l.capacity.disks) == l.capacity.disks
    && AllSit(l.capacity, l.live, os)
  }

  ghost predicate AllSit(capacity: Resource, live: seq<Workload>, os: seq<Origin>) {
    |os| == |live| && forall i :: 0 <= i < |os| ==> live[i] == OriginWorkload(os[i]) && Sits(capacity, os[i])
  }

  // ---- Live workloads are included in the usage

  /** No account of a live workload exceeds that of the usage. */
  lemma LiveWithin(l: Ledger, os: seq<Origin>, i: nat, a: Account)
    requires Sound(l, os) && i < |os|
    ensures Balance(UsageOf(OriginWorkload(os[i])), a) <= Balance(l.usage, a)
  {
    forall w | w in l.live ensures AccountOf(a)(w) >= 0 {
      var k :| 0 <= k < |l.live| && l.live[k] == w;
      OriginAccounts(l.capacity, os[k], a);
    }
    SumNonNegative(AccountOf(a), l.live);
    assert l.live[i] in l.live;
  }

  lemma LiveIncluded(l: Ledger, os: seq<Origin>, i: nat)
    requires Sound(l, os) && i < |os|
    ensures Included(l.capacity, l.usage, os[i])
  {
    forall a: Account ensures Balance(UsageOf(OriginWorkload(os[i])), a) <= Balance(l.usage, a) {
      LiveWithin(l, os, i, a);
    }
  }

  // ---- Runs

  /** What happens to a node; p is the host that its record makes at that moment. */
  datatype Act =
    | Place(p: Pool, req: Request, n: nat)
    | Move(p: Pool, index: nat, requests: seq<VolumeBinding>, storage: int, device: string, answer: Deployment)
    | Resize(index: nat, request: seq<VolumeBinding>, merged: seq<VolumeBinding>, storage: int)
    | Drop(index: nat)
    | Repair

  /**
   * What the scheduler proposes on a record: an allocation, an answer of a reallocation, a reallocation whose request needs
   * no scheduling and so leaves the plan alone, the release of a live workload, or a fix.
   */
  ghost predicate Proposed(l: Ledger, os: seq<Origin>, share: Share, a: Act) {
    match a
    case Place(p, req, n) =>
      && HostOf(l.capacity, l.usage, p) && ValidRequests(req.volumes) && req.storage >= 0
      && Alloc(l.capacity, l.usage, share, p, req, n).Ok?
    case Move(p, i, requests, storage, device, answer) =>
      && i < |os| && HostOf(l.capacity, l.usage, p) && ValidRequests(requests) && storage >= 0
      && Reallocate(Layouts(l.capacity), share, p, requests, os[i].plan.volumes, os[i].requests, device).Ok?
      && AnswersOn(l.capacity, requests,
          Reallocate(Layouts(l.capacity), share, p, requests, os[i].plan.volumes, os[i].requests, device).value, answer)
    case Resize(i, request, merged, storage) =>
      i < |os| && storage >= 0 && !NeedSchedule(request) && MergedAs(request, os[i].requests, merged) && ValidRequests(merged)
    case Drop(i) => i < |os|
    case Repair => true
  }

  function OriginsOf(req: Request, ds: seq<Deployment>): (os: seq<Origin>)
    ensures |os| == |ds|
  {
    seq(|ds|, k requires 0 <= k < |ds| => Origin(req.volumes, ds[k], req.storage))
  }

  /** The write that carries out a proposal. */
  ghost function StepOf(l: Ledger, os: seq<Origin>, share: Share, a: Act): Step
    requires Proposed(l, os, share, a)
  {
    match a
    case Place(p, req, n) => Step.Deploy(Alloc(l.capacity, l.usage, share, p, req, n).value)
    case Move(_, i, requests, storage, _, answer) => Step.Realloc(i, WorkloadOf(answer, storage))
    case Resize(i, _, _, storage) => Step.Realloc(i, WorkloadOf(os[i].plan, storage))
    case Drop(i) => Step.Release(i)
    case Repair => Step.Fix
  }

  /** The live workloads that a proposal is meant to leave. */
  ghost function After(l: Ledger, os: seq<Origin>, share: Share, a: Act): seq<Origin>
    requires Proposed(l, os, share, a)
  {
    match a
    case Place(p, req, n) =>
      os + OriginsOf(req, Schedule(Layouts(l.capacity), share, p, req.volumes, n, Planning))
    case Move(_, i, requests, storage, _, answer) => os[i := Origin(requests, answer, storage)]
    case Resize(i, _, merged, storage) => os[i := Origin(merged, os[i].plan, storage)]
    case Drop(i) => os[..i] + os[i + 1..]
    case Repair => os
  }

  /** An acceptable write of the right sums keeps the invariant. */
  lemma WriteSound(l: Ledger, os: seq<Origin>, usage: Resource, live: seq<Workload>, next: seq<Origin>)
    requires Sound(l, os) && Records.Acceptable(l.capacity, usage) && UniqueDevices(usage.disks)
    requires Balanced(Commit(l, usage, live)) && AllSit(l.capacity, live, next)
    ensures Sound(Commit(l, usage, live), next)
  {
    Records.AcceptableValid(l.capacity, usage);
    assert Records.Sorted(l.capacity) == l.capacity;
  }

  lemma PlaceSound(l: Ledger, os: seq<Origin>, share: Share, p: Pool, req: Request, n: nat)
    requires Sound(l, os) && Proposed(l, os, share, Place(p, req, n))
    ensures Sound(Take(l, StepOf(l, os, share, Place(p, req, n))), After(l, os, share, Place(p, req, n)))
  {
    var ds := Schedule(Layouts(l.capacity), share, p, req.volumes, n, Planning);
    var ws := WorkloadsOf(ds, req.storage);
    var next := After(l, os, share, Place(p, req, n));
    AllocationFits(l.capacity, l.usage, share, p, req, n);
    AllocationUnique(l.capacity, l.usage, share, p, req, n);
    DeployBalanced(l, ws);
    PlacedSit(l.capacity, l.usage, l.live, os, share, p, req, n);
    assert Take(l, Step.Deploy(ws)) == Commit(l, Calculated(None, Some(l.usage), ws, true, true), l.live + ws);
    hide Balanced, Commit, Records.Acceptable, UniqueDevices, Sound, Calculated, AllSit, Schedule, WorkloadsOf, Take;
    WriteSound(l, os, Calculated(None, Some(l.usage), ws, true, true), l.live + ws, next);
  }

  /** The workloads of an allocation sit beside the live ones. */
  lemma PlacedSit(capacity: Resource, usage: Resource, live: seq<Workload>, os: seq<Origin>, share: Share, p: Pool, req: Request, n: nat)
    requires Records.RecordValid(capacity, usage) && HostOf(capacity, usage, p) && ValidRequests(req.volumes) && req.storage >= 0
    requires AllSit(capacity, live, os)
    ensures var ds := Schedule(Layouts(capacity), share, p, req.volumes, n, Planning);
      AllSit(capacity, live + WorkloadsOf(ds, req.storage), os + OriginsOf(req, ds))
  {
    var ds := Schedule(Layouts(capacity), share, p, req.volumes, n, Planning);
    var more := OriginsOf(req, ds);
    forall k | 0 <= k < |ds| ensures Sits(capacity, more[k]) {
      ScheduledSits(capacity, usage, share, p, req.volumes, n, k, req.storage);
    }
    assert forall k :: 0 <= k < |ds| ==> WorkloadsOf(ds, req.storage)[k] == OriginWorkload(more[k]);
  }

  lemma MoveSound(l: Ledger, os: seq<Origin>, i: nat, o: Origin)
    requires Sound(l, os) && i < |os| && Sits(l.capacity, o)
    requires Records.Acceptable(l.capacity, Replaced(l.usage, os[i], OriginWorkload(o)))
    ensures Sound(Take(l, Step.Realloc(i, OriginWorkload(o))), os[i := o])
  {
    MovedSits(l, os, i, o);
    hide Balanced, Commit, Records.Acceptable, UniqueDevices, Sound, Calculated, AllSit, Sits, Delta;
    ReplacedUnique(l.capacity, l.usage, os[i], o.plan, o.storage);
    ReallocBalanced(l, i, OriginWorkload(o));
    WriteSound(l, os, Replaced(l.usage, os[i], OriginWorkload(o)), l.live[i := OriginWorkload(o)], os[i := o]);
  }

  lemma MovedSits(l: Ledger, os: seq<Origin>, i: nat, o: Origin)
    requires Sound(l, os) && i < |os| && Sits(l.capacity, o)
    ensures Balanced(l) && |l.live| == |os| && l.live[i] == OriginWorkload(os[i])
    ensures AllSit(l.capacity, l.live[i := OriginWorkload(o)], os[i := o])
    ensures UniqueDevices(l.usage.disks) && UniqueDevices(os[i].plan.disks) && UniqueDevices(o.plan.disks)
  {
    assert Sits(l.capacity, os[i]);
    hide Balance, Given, Held;
  }

  lemma ReleasedBalance(l: Ledger, os: seq<Origin>, i: nat, a: Account)
    requires Sound(l, os) && i < |os|
    ensures 0 <= Balance(Calculated(None, Some(l.usage), [l.live[i]], true, false), a) <= Balance(l.usage, a)
  {
    var w := l.live[i];
    AccumulatedBalance(l.usage, [w], false, a);
    SumAppend(AccountOf(a), [], w);
    assert [] + [w] == [w];
    LiveWithin(l, os, i, a);
    OriginAccounts(l.capacity, os[i], a);
  }

  /** Taking a live workload off a usage that includes it is acceptable. */
  lemma ReleaseFits(l: Ledger, os: seq<Origin>, i: nat)
    requires Sound(l, os) && i < |os|
    ensures Records.Acceptable(l.capacity, Calculated(None, Some(l.usage), [l.live[i]], true, false))
    ensures UniqueDevices(Calculated(None, Some(l.usage), [l.live[i]], true, false).disks)
  {
    var after := Calculated(None, Some(l.usage), [l.live[i]], true, false);
    assert l.live[i] in l.live;
    AccumulatedUnique(l.usage, [l.live[i]], false);
    forall a: Account ensures 0 <= Balance(after, a) <= Balance(l.usage, a) {
      ReleasedBalance(l, os, i, a);
    }
    hide Calculated, Balanced, AllSit;
    assert 0 <= Balance(after, Space);
    LessIsAcceptable(l.capacity, l.usage, after);
  }

  /** A usage between nothing and a valid one is acceptable. */
  lemma LessIsAcceptable(capacity: Resource, usage: Resource, less: Resource)
    requires Records.RecordValid(capacity, usage) && UniqueDevices(less.disks)
    requires forall a: Account :: 0 <= Balance(less, a) <= Balance(usage, a)
    ensures Records.Acceptable(capacity, less)
  {
    assert 0 <= Balance(less, Space);
    forall c, m | c in capacity.disks ensures 0 <= Balance(less, Draw(c.device, m)) <= c.quota.Get(m) {
      var j :| 0 <= j < |capacity.disks| && capacity.disks[j] == c;
      UsageFits(capacity, usage, j, m);
      assert Balance(less, Draw(c.device, m)) <= Balance(usage, Draw(c.device, m));
    }
    forall d | d in capacity.volumes ensures 0 <= Balance(less, Bytes(d)) <= capacity.volumes[d] {
      assert Balance(less, Bytes(d)) <= Balance(usage, Bytes(d));
    }
    forall d, m | !HasDevice(capacity.disks, d) ensures Balance(less, Draw(d, m)) == 0 {
      UnknownUnused(capacity, usage, d, m);
      assert 0 <= Balance(less, Draw(d, m)) <= Balance(usage, Draw(d, m));
    }
    AcceptableByAccounts(capacity, less);
  }

  lemma DroppedSit(capacity: Resource, live: seq<Workload>, os: seq<Origin>, i: nat)
    requires AllSit(capacity, live, os) && i < |os|
    ensures AllSit(capacity, live[..i] + live[i + 1..], os[..i] + os[i + 1..])
  {
    hide Sits, OriginWorkload;
  }

  lemma DropSound(l: Ledger, os: seq<Origin>, i: nat)
    requires Sound(l, os) && i < |os|
    ensures Sound(Take(l, Step.Release(i)), os[..i] + os[i + 1..])
  {
    var usage := Calculated(None, Some(l.usage), [l.live[i]], true, false);
    var live, next := l.live[..i] + l.live[i + 1..], os[..i] + os[i + 1..];
    ReleaseFits(l, os, i);
    ReleaseBalanced(l, i);
    assert Take(l, Step.Release(i)) == Commit(l, usage, live);
    DroppedSit(l.capacity, l.live, os, i);
    hide Balanced, Commit, Records.Acceptable, UniqueDevices, Sound, Calculated, AllSit, Take;
    WriteSound(l, os, usage, live, next);
  }

  /** In a sound ledger there is nothing to fix. */
  lemma NothingToFix(l: Ledger, os: seq<Origin>)
    requires Sound(l, os)
    ensures Take(l, Step.Fix) == l
  {
    NothingReported(l);
    hide Sound, NoDiffs, Accumulated, Commit;
  }

  lemma AnswerSound(l: Ledger, os: seq<Origin>, share: Share, a: Act)
    requires Sound(l, os) && a.Move? && Proposed(l, os, share, a)
    ensures Sound(Take(l, Step.Realloc(a.index, WorkloadOf(a.answer, a.storage))), os[a.index := Origin(a.requests, a.answer, a.storage)])
  {
    var o := os[a.index];
    LiveIncluded(l, os, a.index);
    assert Sits(l.capacity, o);
    hide Balanced, Included, AnswersOn, Reallocate, HostOf, Sits, Take;
    AnswerValidates(l.capacity, l.usage, share, a.p, o, a.requests, a.storage, a.device, a.answer);
    AnswerSits(l.capacity, l.usage, share, a.p, o, a.requests, a.storage, a.device, a.answer);
    MoveSound(l, os, a.index, Origin(a.requests, a.answer, a.storage));
  }

  lemma MergeSound(l: Ledger, os: seq<Origin>, share: Share, a: Act)
    requires Sound(l, os) && a.Resize? && Proposed(l, os, share, a)
    ensures Sound(Take(l, Step.Realloc(a.index, WorkloadOf(os[a.index].plan, a.storage))),
      os[a.index := Origin(a.merged, os[a.index].plan, a.storage)])
  {
    var o := os[a.index];
    LiveIncluded(l, os, a.index);
    assert Sits(l.capacity, o);
    hide Balanced, Included, Sits, Take;
    UnchangedFits(l.capacity, l.usage, o, a.storage);
    MergedSits(l.capacity, o, a.request, a.merged, a.storage);
    MoveSound(l, os, a.index, Origin(a.merged, o.plan, a.storage));
  }

  /** Every proposal is accepted: the live workloads become the intended ones, and the invariant holds again. */
  lemma ProposalAccepted(l: Ledger, os: seq<Origin>, share: Share, a: Act)
    requires Sound(l, os) && Proposed(l, os, share, a)
    ensures Sound(Take(l, StepOf(l, os, share, a)), After(l, os, share, a))
  {
    hide Sound, Take;
    match a
    case Place(p, req, n) => PlaceSound(l, os, share, p, req, n);
    case Move(_, _, _, _, _, _) => AnswerSound(l, os, share, a);
    case Resize(_, _, _, _) => MergeSound(l, os, share, a);
    case Drop(i) => DropSound(l, os, i);
    case Repair => NothingToFix(l, os);
  }

  ghost predicate AllProposed(l: Ledger, os: seq<Origin>, share: Share, acts: seq<Act>)
    decreases |acts|
  {
    acts == [] ||
    (Proposed(l, os, share, acts[0])
      && AllProposed(Take(l, StepOf(l, os, share, acts[0])), After(l, os, share, acts[0]), share, acts[1..]))
  }

  /** The ledger and the live workloads after a run of proposals. */
  ghost function RunOf(l: Ledger, os: seq<Origin>, share: Share, acts: seq<Act>): (Ledger, seq<Origin>)
    requires AllProposed(l, os, share, acts)
    decreases |acts|
  {
    if acts == [] then (l, os)
    else RunOf(Take(l, StepOf(l, os, share, acts[0])), After(l, os, share, acts[0]), share, acts[1..])
  }

  /**
   * A run of proposals never meets a refused write: it ends with the intended live workloads, a valid record whose usage is
   * their sum, nothing for the comparison to report, and every live workload included in the usage.
   */
  lemma {:induction false} RunSound(l: Ledger, os: seq<Origin>, share: Share, acts: seq<Act>)
    requires Sound(l, os) && AllProposed(l, os, share, acts)
    ensures var (r, live) := RunOf(l, os, share, acts);
      && Sound(r, live)
      && NoDiffs(r.usage, Accumulated(NOTHING, Unmounted(r.live), true))
      && forall i :: 0 <= i < |live| ==> Included(r.capacity, r.usage, live[i])
    decreases |acts|
  {
    if acts == [] {
      NothingReported(l);
      forall i | 0 <= i < |os| ensures Included(l.capacity, l.usage, os[i]) {
        LiveIncluded(l, os, i);
      }
    } else {
      ProposalAccepted(l, os, share, acts[0]);
      RunSound(Take(l, StepOf(l, os, share, acts[0])), After(l, os, share, acts[0]), share, acts[1..]);
    }
  }

  // ---- Storage over runs

  /** Where a proposal replaces a live workload, the storage in place of the old one fits; reallocation grants no other. */
  ghost predicate Afforded(l: Ledger, os: seq<Origin>, a: Act) {
    match a
    case Move(_, i, _, storage, _, _) => i < |os| && l.usage.storage - os[i].storage + storage <= l.capacity.storage
    case Resize(i, _, _, storage) => i < |os| && l.usage.storage - os[i].storage + storage <= l.capacity.storage
    case _ => true
  }

  lemma CommitStorage(l: Ledger, usage: Resource, live: seq<Workload>)
    requires l.usage.storage <= l.capacity.storage && usage.storage <= l.capacity.storage
    ensures var r := Commit(l, usage, live); r.usage.storage <= r.capacity.storage
  {
    hide Records.Acceptable, Records.Kept, Records.SortDisks;
  }

  lemma MoveStorage(l: Ledger, os: seq<Origin>, i: nat, plan: Deployment, storage: int)
    requires Sound(l, os) && i < |os| && l.usage.storage <= l.capacity.storage
    requires l.usage.storage - os[i].storage + storage <= l.capacity.storage
    ensures var r := Take(l, Step.Realloc(i, WorkloadOf(plan, storage))); r.usage.storage <= r.capacity.storage
  {
    var usage := Replaced(l.usage, os[i], WorkloadOf(plan, storage));
    ReplacedBalance(l.usage, os[i], WorkloadOf(plan, storage), Space);
    CommitStorage(l, usage, l.live[i := WorkloadOf(plan, storage)]);
    assert Balance(usage, Space) == usage.storage;
    hide Commit, Calculated, Delta;
  }

  lemma LiveCount(l: Ledger, os: seq<Origin>)
    requires Sound(l, os)
    ensures |l.live| == |os| && SumBy(AccountOf(Space), l.live) == l.usage.storage
  {
    assert Balance(l.usage, Space) == SumBy(AccountOf(Space), l.live);
  }

  lemma DropStorage(l: Ledger, os: seq<Origin>, i: nat)
    requires Sound(l, os) && i < |os| && l.usage.storage <= l.capacity.storage
    ensures var r := Take(l, Step.Release(i)); r.usage.storage <= r.capacity.storage
  {
    LiveCount(l, os);
    hide Commit, Calculated, Sound, NoDiffs, Accumulated;
    var usage := Calculated(None, Some(l.usage), [l.live[i]], true, false);
    ReleasedBalance(l, os, i, Space);
    CommitStorage(l, usage, l.live[..i] + l.live[i + 1..]);
    assert Balance(usage, Space) == usage.storage && Balance(l.usage, Space) == l.usage.storage;
  }

  lemma PlaceStorage(l: Ledger, os: seq<Origin>, share: Share, a: Act)
    requires a.Place? && Proposed(l, os, share, a) && l.usage.storage <= l.capacity.storage
    ensures var r := Take(l, StepOf(l, os, share, a)); r.usage.storage <= r.capacity.storage
  {
    var ws := Alloc(l.capacity, l.usage, share, a.p, a.req, a.n).value;
    AllocationStorage(l.capacity, l.usage, share, a.p, a.req, a.n);
    CommitStorage(l, Calculated(None, Some(l.usage), ws, true, true), l.live + ws);
    hide Commit, Calculated, Alloc;
  }

  /** No proposal that passes the check of storage lets the usage of storage exceed the capacity. */
  lemma StorageKept(l: Ledger, os: seq<Origin>, share: Share, a: Act)
    requires Sound(l, os) && Proposed(l, os, share, a) && Afforded(l, os, a) && l.usage.storage <= l.capacity.storage
    ensures var r := Take(l, StepOf(l, os, share, a)); r.usage.storage <= r.capacity.storage
  {
    hide Sound, Take;
    match a
    case Place(_, _, _) => PlaceStorage(l, os, share, a);
    case Move(_, i, _, storage, _, answer) => MoveStorage(l, os, i, answer, storage);
    case Resize(i, _, _, storage) => MoveStorage(l, os, i, os[i].plan, storage);
    case Drop(i) => DropStorage(l, os, i);
    case Repair => NothingToFix(l, os);
  }

  ghost predicate AllAfforded(l: Ledger, os: seq<Origin>, share: Share, acts: seq<Act>)
    requires AllProposed(l, os, share, acts)
    decreases |acts|
  {
    acts == [] ||
    (Afforded(l, os, acts[0])
      && AllAfforded(Take(l, StepOf(l, os, share, acts[0])), After(l, os, share, acts[0]), share, acts[1..]))
  }

  /** Over a whole run the storage of all live workloads never exceeds the capacity, though validation does not look at that. */
  lemma {:induction false} RunStorage(l: Ledger, os: seq<Origin>, share: Share, acts: seq<Act>)
    requires Sound(l, os) && AllProposed(l, os, share, acts) && AllAfforded(l, os, share, acts)
    requires l.usage.storage <= l.capacity.storage
    ensures var (r, live) := RunOf(l, os, share, acts);
      r.usage.storage <= r.capacity.storage && SumBy(AccountOf(Space), r.live) <= r.capacity.storage
    decreases |acts|
  {
    hide Sound, Take, StepOf, After, Afforded, Proposed, AccountOf, SumBy;
    if acts == [] {
      LiveCount(l, os);
    } else {
      ProposalAccepted(l, os, share, acts[0]);
      StorageKept(l, os, share, acts[0]);
      RunStorage(Take(l, StepOf(l, os, share, acts[0])), After(l, os, share, acts[0]), share, acts[1..]);
    }
  }

  ghost predicate HoldsNothing(usage: Resource) {
    forall a: Account :: Balance(usage, a) == 0
  }

  lemma SettledHoldsNothing(capacity: Resource, usage: Resource)
    requires UniqueDevices(capacity.disks) && UniqueDevices(usage.disks) && Records.Acceptable(capacity, usage) && HoldsNothing(usage)
    ensures HoldsNothing(Records.Settled(capacity, usage))
  {
    Records.AcceptableValid(capacity, usage);
    hide Records.Settled, Records.RecordValid, Records.Acceptable, Balance;
    forall a: Account ensures Balance(Records.Settled(capacity, usage), a) == 0 {
      assert Balance(usage, a) == 0;
    }
  }

  lemma NothingLive(capacity: Resource, usage: Resource)
    requires UniqueDevices(capacity.disks) && UniqueDevices(usage.disks) && HoldsNothing(usage)
    ensures Balanced(Ledger(capacity, usage, []))
  {
  }

  /** A node whose usage holds nothing, once validated, starts a run. */
  lemma FreshSound(capacity: Resource, usage: Resource)
    requires UniqueDevices(capacity.disks) && UniqueDevices(usage.disks) && Records.Acceptable(capacity, usage) && HoldsNothing(usage)
    ensures Sound(Ledger(Records.Sorted(capacity), Records.Settled(capacity, usage), []), [])
  {
    hide HoldsNothing, Balance;
    SettledHoldsNothing(capacity, usage);
    Records.AcceptableValid(capacity, usage);
    Records.SortedOnce(capacity.disks);
    NothingLive(Records.Sorted(capacity), Records.Settled(capacity, usage));
  }

  /**
   * In every state of a run, a live workload whose plan was scheduled on an earlier state of the node keeps its plan when
   * it is reallocated with its own requests, whatever matched monopoly entry is come to first.
   */
  lemma LiveIsFixed(l: Ledger, os: seq<Origin>, i: nat, p: Pool, share: Share, before: Resource, p0: Pool, n: nat, k: nat, device: string)
    requires Sound(l, os) && i < |os| && HostOf(l.capacity, l.usage, p) && NeedSchedule(os[i].requests)
    requires Records.RecordValid(l.capacity, before) && HostOf(l.capacity, before, p0)
    requires k < |Schedule(Layouts(l.capacity), share, p0, os[i].requests, n, Planning)|
    requires os[i].plan == Schedule(Layouts(l.capacity), share, p0, os[i].requests, n, Planning)[k]
    requires Kept(Classify(os[i].requests).mono, os[i].plan.volumes) != [] ==> Picked(os[i].requests, os[i].plan.volumes, device)
    ensures SamePlan(Layouts(l.capacity), Classify(os[i].requests), os[i].plan,
      Reallocate(Layouts(l.capacity), share, p, os[i].requests, os[i].plan.volumes, os[i].requests, device))
  {
    var o := os[i];
    forall d ensures BytesOn(o.plan.volumes, d) <= Stored(l.usage.volumes, d) {
      LiveWithin(l, os, i, Bytes(d));
      WorkloadAccounts(o.plan, o.storage);
    }
    var fixed := DeployedIsFixed(l.capacity, before, p0, l.usage, p, share, o.requests, n, k, o.plan.volumes);
    if Kept(Classify(o.requests).mono, o.plan.volumes) == [] {
      NoPick(Layouts(l.capacity), share, p, o.requests, o.plan.volumes, o.requests, fixed, device);
    }
  }

  /**
   * In every state of a run, reallocating a live workload to any requests comes out the same in whatever order its plan and
   * its matched monopoly entries are ranged over.
   */
  lemma LiveAnyOrder(l: Ledger, os: seq<Origin>, i: nat, p: Pool, share: Share, requests: seq<VolumeBinding>,
      plan: VolumePlan, d: string, e: string)
    requires Sound(l, os) && i < |os| && multiset(plan) == multiset(os[i].plan.volumes)
    requires Kept(Classify(requests).mono, plan) != [] ==> Picked(requests, os[i].plan.volumes, d) && Picked(requests, plan, e)
    ensures Reallocate(Layouts(l.capacity), share, p, requests, os[i].plan.volumes, os[i].requests, d)
         == Reallocate(Layouts(l.capacity), share, p, requests, plan, os[i].requests, e)
  {
    var o := os[i];
    assert Sits(l.capacity, o);
    if Kept(Classify(requests).mono, plan) != [] {
      AnyOrder(Layouts(l.capacity), share, p, requests, o.plan.volumes, plan, o.requests, d, e);
    } else {
      OriginOrder(Layouts(l.capacity), share, p, requests, o.plan.volumes, plan, o.requests, d);
      NoPick(Layouts(l.capacity), share, p, requests, plan, o.requests, d, e);
    }
  }
}
