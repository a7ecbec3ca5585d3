/** Usage as a ledger of live workloads: deploying, reallocating, releasing, comparing and fixing. */
module Ledgers {
  import opened Quantity
  import opened Options
  import opened Disks
  import opened Sums
  import opened Resources
  import opened Records

  /** What a workload holds: the volume maps of its plan, its disk plan, its storage. */
  datatype Workload = Workload(volumes: seq<map<string, int>>, disks: seq<Disk>, storage: int)

  function TotalVolumes(maps: seq<map<string, int>>): map<string, int> {
    if maps == [] then map[] else PlusVolumes(TotalVolumes(maps[..|maps| - 1]), maps[|maps| - 1])
  }

  function UsageOf(w: Workload): Resource {
    Resource(TotalVolumes(w.volumes), w.disks, w.storage)
  }

  const NOTHING: Resource := Resource(map[], [], 0)

  /** The usages of workloads added to, or taken off, a start. */
  function Accumulated(start: Resource, ws: seq<Workload>, up: bool): Resource {
    if ws == [] then start else
      var r := Accumulated(start, ws[..|ws| - 1], up);
      if up then Plus(r, UsageOf(ws[|ws| - 1])) else Minus(r, UsageOf(ws[|ws| - 1]))
  }

  /** calculateNodeResource as a value; without delta, or without an origin, the result is written anew and always added up. */
  function Calculated(resource: Option<Resource>, origin: Option<Resource>, ws: seq<Workload>, delta: bool, incr: bool): Resource {
    var rewrite := origin.None? || !delta;
    var start := if rewrite then NOTHING else origin.value;
    var up := incr || rewrite;
    match resource
    case Some(r) => if up then Plus(start, r) else Minus(start, r)
    case None => Accumulated(start, ws, up)
  }

  /** The volume maps of one workload added up. */
  method SumVolumes(w: Workload) returns (r: map<string, int>)
    ensures r == TotalVolumes(w.volumes)
  {
    r := map[];
    for i := 0 to |w.volumes|
      invariant r == TotalVolumes(w.volumes[..i])
    {
      assert w.volumes[..i + 1][..i] == w.volumes[..i];
      r := AddVolumes(r, w.volumes[i]);
    }
    assert w.volumes[..|w.volumes|] == w.volumes;
  }

  method CalculateNodeResource(resource: Option<Resource>, origin: Option<Resource>, ws: seq<Workload>, delta: bool, incr: bool)
    returns (resp: NodeResource)
    ensures fresh(resp) && resp.Value() == Calculated(resource, origin, ws, delta, incr)
    ensures delta && origin.Some? && incr ==>
      forall a: Account :: Balance(resp.Value(), a) == Balance(origin.value, a) + Amount(resource, ws, a)
    ensures delta && origin.Some? && !incr ==>
      forall a: Account :: Balance(resp.Value(), a) == Balance(origin.value, a) - Amount(resource, ws, a)
    ensures !delta || origin.None? ==> forall a: Account :: Balance(resp.Value(), a) == Amount(resource, ws, a)
  {
    forall a: Account {
      CalculatedBalance(resource, origin, ws, delta, incr, a);
    }
    hide Balance, Amount;
    var up := incr;
    if origin.None? || !delta {
      resp := new NodeResource(NOTHING);
      up := true;
    } else {
      resp := new NodeResource(origin.value);
    }
    ghost var start := resp.Value();
    if resource.Some? {
      var r := new NodeResource(resource.value);
      if up {
        resp.Add(r);
      } else {
        resp.Sub(r);
      }
      return;
    }
    for i := 0 to |ws|
      invariant fresh(resp) && resp.Value() == Accumulated(start, ws[..i], up)
    {
      assert ws[..i + 1][..i] == ws[..i];
      var volumes := SumVolumes(ws[i]);
      var r := new NodeResource(Resource(volumes, ws[i].disks, ws[i].storage));
      if up {
        resp.Add(r);
      } else {
        resp.Sub(r);
      }
    }
    assert ws[..|ws|] == ws;
  }

  // ---- Accounts of many workloads

  function AccountOf(a: Account): Workload -> int {
    (w: Workload) => Balance(UsageOf(w), a)
  }

  /** Accumulating workloads moves every account by the sum of theirs. */
  lemma {:induction false} AccumulatedBalance(start: Resource, ws: seq<Workload>, up: bool, a: Account)
    ensures Balance(Accumulated(start, ws, up), a)
         == Balance(start, a) + if up then SumBy(AccountOf(a), ws) else -SumBy(AccountOf(a), ws)
  {
    if ws != [] {
      var n := |ws| - 1;
      AccumulatedBalance(start, ws[..n], up, a);
      PlusBalance(Accumulated(start, ws[..n], up), UsageOf(ws[n]), a);
      MinusBalance(Accumulated(start, ws[..n], up), UsageOf(ws[n]), a);
    }
  }

  /** What a resource or, without one, the workloads together hold of an account. */
  function Amount(resource: Option<Resource>, ws: seq<Workload>, a: Account): int {
    match resource
    case Some(r) => Balance(r, a)
    case None => SumBy(AccountOf(a), ws)
  }

  /** A usage written anew holds what is given, whatever incr says; otherwise every account of the origin moves up or down by it. */
  lemma CalculatedBalance(resource: Option<Resource>, origin: Option<Resource>, ws: seq<Workload>, delta: bool, incr: bool, a: Account)
    ensures Balance(Calculated(resource, origin, ws, delta, incr), a) ==
      if !delta || origin.None? then Amount(resource, ws, a)
      else Balance(origin.value, a) + if incr then Amount(resource, ws, a) else -Amount(resource, ws, a)
  {
    var start := if delta && origin.Some? then origin.value else NOTHING;
    var up := incr || !delta || origin.None?;
    match resource
    case Some(r) =>
      PlusBalance(start, r, a);
      MinusBalance(start, r, a);
    case None => AccumulatedBalance(start, ws, up, a);
  }

  ghost predicate AllUnique(ws: seq<Workload>) {
    forall w :: w in ws ==> UniqueDevices(w.disks)
  }

  lemma {:induction false} AccumulatedUnique(start: Resource, ws: seq<Workload>, up: bool)
    requires UniqueDevices(start.disks) && AllUnique(ws)
    ensures UniqueDevices(Accumulated(start, ws, up).disks)
  {
    if ws != [] {
      var n := |ws| - 1;
      assert ws == ws[..n] + [ws[n]];
      AccumulatedUnique(start, ws[..n], up);
      UniqueAfter(Accumulated(start, ws[..n], up), UsageOf(ws[n]));
    }
  }

  // ---- The change from one workload to another

  function NegatedVolumes(start: map<string, int>, maps: seq<map<string, int>>): map<string, int> {
    if maps == [] then start else MinusVolumes(NegatedVolumes(start, maps[..|maps| - 1]), maps[|maps| - 1])
  }

  /** getDeltaWorkloadResourceArgs as a value: one volume map, the difference of the disks, the difference of the storage. */
  function Delta(origin: Workload, target: Workload): Workload {
    Workload([NegatedVolumes(TotalVolumes(target.volumes), origin.volumes)],
      Added(target.disks, Negate(origin.disks)), target.storage - origin.storage)
  }

  method GetDelta(origin: Workload, target: Workload) returns (delta: Workload)
    ensures delta == Delta(origin, target)
  {
    var volumes := SumVolumes(target);
    for i := 0 to |origin.volumes|
      invariant volumes == NegatedVolumes(TotalVolumes(target.volumes), origin.volumes[..i])
    {
      assert origin.volumes[..i + 1][..i] == origin.volumes[..i];
      volumes := SubVolumes(volumes, origin.volumes[i]);
    }
    assert origin.volumes[..|origin.volumes|] == origin.volumes;
    var disks := Disks.Sub(target.disks, origin.disks);
    delta := Workload([volumes], disks, target.storage - origin.storage);
  }

  lemma {:induction false} NegatedStored(start: map<string, int>, maps: seq<map<string, int>>, d: string)
    ensures Stored(NegatedVolumes(start, maps), d) == Stored(start, d) - Stored(TotalVolumes(maps), d)
  {
    if maps != [] {
      NegatedStored(start, maps[..|maps| - 1], d);
    }
  }

  /** The delta moves every account from what the origin holds to what the target holds. */
  lemma DeltaBalance(origin: Workload, target: Workload, a: Account)
    ensures Balance(UsageOf(Delta(origin, target)), a) == Balance(UsageOf(target), a) - Balance(UsageOf(origin), a)
  {
    match a
    case Bytes(d) =>
      NegatedStored(TotalVolumes(target.volumes), origin.volumes, d);
      var m := NegatedVolumes(TotalVolumes(target.volumes), origin.volumes);
      assert [m][..0] == [] && TotalVolumes([m]) == PlusVolumes(map[], m);
    case Draw(disk, meter) => SubbedTotal(target.disks, origin.disks, disk, meter);
    case Space =>
  }

  // ---- Runs

  datatype Ledger = Ledger(capacity: Resource, usage: Resource, live: seq<Workload>)

  datatype Step = Deploy(ws: seq<Workload>) | Realloc(index: nat, target: Workload) | Release(index: nat) | Fix

  /** A write: validated, and without effect when validation fails. */
  ghost function Commit(l: Ledger, usage: Resource, live: seq<Workload>): Ledger {
    if Acceptable(l.capacity, usage) then Ledger(Sorted(l.capacity), Settled(l.capacity, usage), live) else l
  }

  ghost function Take(l: Ledger, s: Step): Ledger {
    match s
    case Deploy(ws) => Commit(l, Calculated(None, Some(l.usage), ws, true, true), l.live + ws)
    case Realloc(i, target) =>
      if i >= |l.live| then l else
        Commit(l, Calculated(None, Some(l.usage), [Delta(l.live[i], target)], true, true), l.live[i := target])
    case Release(i) =>
      if i >= |l.live| then l else
        Commit(l, Calculated(None, Some(l.usage), [l.live[i]], true, false), l.live[..i] + l.live[i + 1..])
    case Fix =>
      var computed := Accumulated(NOTHING, Unmounted(l.live), true);
      if NoDiffs(l.usage, computed) then l else Commit(l, computed, l.live)
  }

  ghost function TakeAll(l: Ledger, steps: seq<Step>): Ledger {
    if steps == [] then l else Take(TakeAll(l, steps[..|steps| - 1]), steps[|steps| - 1])
  }

  /** Every account of the usage is the sum of those of the live workloads. */
  ghost predicate Balanced(l: Ledger) {
    && UniqueDevices(l.capacity.disks) && UniqueDevices(l.usage.disks) && AllUnique(l.live)
    && forall a: Account :: Balance(l.usage, a) == SumBy(AccountOf(a), l.live)
  }

  ghost predicate StepUnique(s: Step) {
    match s
    case Deploy(ws) => AllUnique(ws)
    case Realloc(_, target) => UniqueDevices(target.disks)
    case _ => true
  }

  /** A write of the right sums keeps the ledger balanced, whether or not it is accepted. */
  lemma CommitBalanced(l: Ledger, usage: Resource, live: seq<Workload>)
    requires Balanced(l) && UniqueDevices(usage.disks) && AllUnique(live)
    requires forall a: Account :: Balance(usage, a) == SumBy(AccountOf(a), live)
    ensures Balanced(Commit(l, usage, live))
  {
    if Acceptable(l.capacity, usage) {
      AcceptableValid(l.capacity, usage);
    }
  }

  lemma DeployBalanced(l: Ledger, ws: seq<Workload>)
    requires Balanced(l) && AllUnique(ws)
    ensures Balanced(Take(l, Deploy(ws)))
  {
    var usage := Calculated(None, Some(l.usage), ws, true, true);
    AccumulatedUnique(l.usage, ws, true);
    forall a: Account ensures Balance(usage, a) == SumBy(AccountOf(a), l.live + ws) {
      AccumulatedBalance(l.usage, ws, true, a);
      SumConcat(AccountOf(a), l.live, ws);
    }
    CommitBalanced(l, usage, l.live + ws);
  }

  lemma ReallocBalanced(l: Ledger, i: nat, target: Workload)
    requires Balanced(l) && UniqueDevices(target.disks) && i < |l.live|
    ensures Balanced(Take(l, Realloc(i, target)))
  {
    var delta := Delta(l.live[i], target);
    var usage := Calculated(None, Some(l.usage), [delta], true, true);
    var live := l.live[i := target];
    assert l.live[i] in l.live;
    NegateUnique(l.live[i].disks);
    AddedUnique(target.disks, Negate(l.live[i].disks));
    AccumulatedUnique(l.usage, [delta], true);
    forall a: Account ensures Balance(usage, a) == SumBy(AccountOf(a), live) {
      AccumulatedBalance(l.usage, [delta], true, a);
      SumAppend(AccountOf(a), [], delta);
      assert [] + [delta] == [delta];
      DeltaBalance(l.live[i], target, a);
      SumUpdate(AccountOf(a), l.live, i, target);
    }
    CommitBalanced(l, usage, live);
  }

  lemma SumUpdate<T>(f: T -> int, s: seq<T>, i: nat, x: T)
    requires i < |s|
    ensures SumBy(f, s[i := x]) == SumBy(f, s) - f(s[i]) + f(x)
    ensures SumBy(f, s[..i] + s[i + 1..]) == SumBy(f, s) - f(s[i])
  {
    assert s == s[..i] + [s[i]] + s[i + 1..];
    assert s[i := x] == s[..i] + [x] + s[i + 1..];
    SumConcat(f, s[..i] + [s[i]], s[i + 1..]);
    SumConcat(f, s[..i] + [x], s[i + 1..]);
    SumConcat(f, s[..i], s[i + 1..]);
    SumAppend(f, s[..i], s[i]);
    SumAppend(f, s[..i], x);
  }

  lemma ReleaseBalanced(l: Ledger, i: nat)
    requires Balanced(l) && i < |l.live|
    ensures Balanced(Take(l, Release(i)))
  {
    var w := l.live[i];
    var usage := Calculated(None, Some(l.usage), [w], true, false);
    var live := l.live[..i] + l.live[i + 1..];
    assert w in l.live;
    AccumulatedUnique(l.usage, [w], false);
    forall a: Account ensures Balance(usage, a) == SumBy(AccountOf(a), live) {
      AccumulatedBalance(l.usage, [w], false, a);
      SumAppend(AccountOf(a), [], w);
      assert [] + [w] == [w];
      SumUpdate(AccountOf(a), l.live, i, w);
    }
    CommitBalanced(l, usage, live);
  }

  // ---- Comparing the stored usage with the workloads

  /** Disks.RemoveMounts */
  function WithoutMounts(ds: seq<Disk>): (r: seq<Disk>)
    ensures |r| == |ds|
  {
    seq(|ds|, i requires 0 <= i < |ds| => ds[i].(mounts := []))
  }

  function Unmounted(ws: seq<Workload>): (r: seq<Workload>)
    ensures |r| == |ws|
  {
    seq(|ws|, i requires 0 <= i < |ws| => ws[i].(disks := WithoutMounts(ws[i].disks)))
  }

  lemma {:induction false} WithoutMountsTotal(ds: seq<Disk>, device: string, m: Meter)
    ensures TotalQuota(WithoutMounts(ds), device, m) == TotalQuota(ds, device, m)
  {
    if ds != [] {
      assert WithoutMounts(ds)[..|ds| - 1] == WithoutMounts(ds[..|ds| - 1]);
      WithoutMountsTotal(ds[..|ds| - 1], device, m);
    }
  }

  lemma {:induction false} UnmountedSum(ws: seq<Workload>, a: Account)
    ensures SumBy(AccountOf(a), Unmounted(ws)) == SumBy(AccountOf(a), ws)
  {
    if ws != [] {
      var n := |ws| - 1;
      assert Unmounted(ws)[..n] == Unmounted(ws[..n]);
      UnmountedSum(ws[..n], a);
      if a.Draw? {
        WithoutMountsTotal(ws[n].disks, a.disk, a.meter);
      }
    }
  }

  lemma UnmountedUnique(ws: seq<Workload>)
    requires AllUnique(ws)
    ensures AllUnique(Unmounted(ws))
  {
    var us := Unmounted(ws);
    forall u | u in us ensures UniqueDevices(u.disks) {
      var i :| 0 <= i < |us| && us[i] == u;
      assert ws[i] in ws;
      forall a, b | 0 <= a < b < |u.disks| ensures u.disks[a].device != u.disks[b].device {
        assert ws[i].disks[a].device != ws[i].disks[b].device;
      }
    }
  }

  /** What the workloads hold against one disk, zero when they do not name it. */
  function ComputedQuota(computed: seq<Disk>, device: string): Quota {
    match IndexOf(computed, device)
    case None => Quota(0, 0, 0, 0)
    case Some(i) => computed[i].quota
  }

  /** The comparison finds nothing: storage, every volume of either side, and every stored disk. */
  ghost predicate NoDiffs(stored: Resource, computed: Resource) {
    && stored.storage == computed.storage
    && (forall d :: d in stored.volumes || d in computed.volumes ==> Stored(stored.volumes, d) == Stored(computed.volumes, d))
    && (forall x :: x in stored.disks ==> x.quota == ComputedQuota(computed.disks, x.device))
  }

  /** No disk that only the workloads name holds anything. */
  ghost predicate NoHiddenDisk(stored: Resource, computed: Resource) {
    forall device, m :: !HasDevice(stored.disks, device) ==> TotalQuota(computed.disks, device, m) == 0
  }

  lemma ComputedTotal(computed: seq<Disk>, device: string, m: Meter)
    requires UniqueDevices(computed)
    ensures ComputedQuota(computed, device).Get(m) == TotalQuota(computed, device, m)
  {
    match IndexOf(computed, device)
    case None => TotalQuotaAbsent(computed, device, m);
    case Some(i) => TotalQuotaUnique(computed, i, m);
  }

  lemma StoredTotal(stored: seq<Disk>, x: Disk, m: Meter)
    requires UniqueDevices(stored) && x in stored
    ensures TotalQuota(stored, x.device, m) == x.quota.Get(m)
  {
    var i :| 0 <= i < |stored| && stored[i] == x;
    TotalQuotaUnique(stored, i, m);
  }

  /** Finding nothing means that all accounts agree, exactly when no disk is missing from the stored usage. */
  lemma NoDiffsMeansEqual(stored: Resource, computed: Resource)
    requires UniqueDevices(stored.disks) && UniqueDevices(computed.disks)
    ensures (forall a: Account :: Balance(stored, a) == Balance(computed, a)) <==> NoDiffs(stored, computed) && NoHiddenDisk(stored, computed)
  {
    if forall a: Account :: Balance(stored, a) == Balance(computed, a) {
      EqualMeansNoDiffs(stored, computed);
    }
    if NoDiffs(stored, computed) && NoHiddenDisk(stored, computed) {
      forall a: Account ensures Balance(stored, a) == Balance(computed, a) {
        if a.Draw? {
          ComputedTotal(computed.disks, a.disk, a.meter);
          if HasDevice(stored.disks, a.disk) {
            var i :| 0 <= i < |stored.disks| && stored.disks[i].device == a.disk;
            StoredTotal(stored.disks, stored.disks[i], a.meter);
          } else {
            TotalQuotaAbsent(stored.disks, a.disk, a.meter);
          }
        }
      }
    }
  }

  lemma EqualMeansNoDiffs(stored: Resource, computed: Resource)
    requires UniqueDevices(stored.disks) && UniqueDevices(computed.disks)
    requires forall a: Account :: Balance(stored, a) == Balance(computed, a)
    ensures NoDiffs(stored, computed) && NoHiddenDisk(stored, computed)
  {
    assert Balance(stored, Space) == Balance(computed, Space);
    forall d ensures Stored(stored.volumes, d) == Stored(computed.volumes, d) {
      assert Balance(stored, Bytes(d)) == Balance(computed, Bytes(d));
    }
    forall x | x in stored.disks ensures x.quota == ComputedQuota(computed.disks, x.device) {
      forall m: Meter ensures x.quota.Get(m) == ComputedQuota(computed.disks, x.device).Get(m) {
        StoredTotal(stored.disks, x, m);
        ComputedTotal(computed.disks, x.device, m);
        assert Balance(stored, Draw(x.device, m)) == Balance(computed, Draw(x.device, m));
      }
      EqualByMeter(x.quota, ComputedQuota(computed.disks, x.device));
    }
    forall device, m | !HasDevice(stored.disks, device) ensures TotalQuota(computed.disks, device, m) == 0 {
      TotalQuotaAbsent(stored.disks, device, m);
      assert Balance(stored, Draw(device, m)) == Balance(computed, Draw(device, m));
    }
  }

  /** A disk that the workloads draw from and the stored usage does not list is not reported. */
  lemma HiddenDiskUnreported()
    ensures var stored, computed := NOTHING, Resource(map[], [Disk("/dev/vda", [], Quota(1, 0, 0, 0))], 0);
      && UniqueDevices(stored.disks) && UniqueDevices(computed.disks)
      && NoDiffs(stored, computed) && Balance(stored, Draw("/dev/vda", ReadIOPS)) != Balance(computed, Draw("/dev/vda", ReadIOPS))
  {
    var ds := [Disk("/dev/vda", [], Quota(1, 0, 0, 0))];
    TotalQuotaUnique(ds, 0, ReadIOPS);
  }

  // ---- The whole run

  lemma FixBalanced(l: Ledger)
    requires Balanced(l)
    ensures Balanced(Take(l, Fix))
  {
    var computed := Accumulated(NOTHING, Unmounted(l.live), true);
    ComputedBalance(l.live);
    CommitBalanced(l, computed, l.live);
  }

  /** What the comparison computes from the workloads holds the sum of their accounts. */
  lemma ComputedBalance(live: seq<Workload>)
    requires AllUnique(live)
    ensures var computed := Accumulated(NOTHING, Unmounted(live), true);
      && UniqueDevices(computed.disks)
      && forall a: Account :: Balance(computed, a) == SumBy(AccountOf(a), live)
  {
    UnmountedUnique(live);
    AccumulatedUnique(NOTHING, Unmounted(live), true);
    forall a: Account ensures Balance(Accumulated(NOTHING, Unmounted(live), true), a) == SumBy(AccountOf(a), live) {
      AccumulatedBalance(NOTHING, Unmounted(live), true, a);
      UnmountedSum(live, a);
    }
  }

  /** Every run of deploys, reallocations, releases and fixes from a balanced ledger ends balanced, with nothing to report. */
  lemma {:induction false} RunBalanced(l: Ledger, steps: seq<Step>)
    requires Balanced(l) && forall s :: s in steps ==> StepUnique(s)
    ensures var r := TakeAll(l, steps); Balanced(r) && NoDiffs(r.usage, Accumulated(NOTHING, Unmounted(r.live), true))
  {
    if steps != [] {
      var n := |steps| - 1;
      assert steps == steps[..n] + [steps[n]];
      RunBalanced(l, steps[..n]);
      StepBalanced(TakeAll(l, steps[..n]), steps[n]);
    }
    NothingReported(TakeAll(l, steps));
  }

  /** The comparison of a balanced ledger with its workloads reports nothing. */
  lemma NothingReported(l: Ledger)
    requires Balanced(l)
    ensures NoDiffs(l.usage, Accumulated(NOTHING, Unmounted(l.live), true))
  {
    var computed := Accumulated(NOTHING, Unmounted(l.live), true);
    ComputedBalance(l.live);
    forall a: Account ensures Balance(l.usage, a) == Balance(computed, a) {
    }
    EqualMeansNoDiffs(l.usage, computed);
  }

  lemma StepBalanced(l: Ledger, s: Step)
    requires Balanced(l) && StepUnique(s)
    ensures Balanced(Take(l, s))
  {
    match s
    case Deploy(ws) => DeployBalanced(l, ws);
    case Realloc(i, target) =>
      if i < |l.live| {
        ReallocBalanced(l, i, target);
      }
    case Release(i) =>
      if i < |l.live| {
        ReleaseBalanced(l, i);
      }
    case Fix => FixBalanced(l);
  }

  /** After a fix that is accepted the comparison reports nothing, whatever the usage was before. */
  lemma FixedReportsNothing(capacity: Resource, live: seq<Workload>)
    requires UniqueDevices(capacity.disks) && AllUnique(live)
    requires Acceptable(capacity, Accumulated(NOTHING, Unmounted(live), true))
    ensures var computed := Accumulated(NOTHING, Unmounted(live), true);
      NoDiffs(Settled(capacity, computed), computed) && NoHiddenDisk(Settled(capacity, computed), computed)
  {
    var computed := Accumulated(NOTHING, Unmounted(live), true);
    ComputedBalance(live);
    AcceptableValid(capacity, computed);
    EqualMeansNoDiffs(Settled(capacity, computed), computed);
  }
}
