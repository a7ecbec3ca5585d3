/** How evaluations of one host under different bounds compare. */
module Evaluations {
  import opened Quantity
  import opened Bindings
  import opened Disks
  import opened Volumes
  import opened Sums
  import opened Charges
  import opened Repetition
  import opened Passes
  import opened MountPasses
  import opened Monopoly
  import opened Termination
  import opened Planner

  /** After the normal stage nothing is overdrawn, counting a failed last pass or not. */
  lemma StageGood(l: Topology, p: Pool, c: RequestClasses, maxCount: nat, bound: int)
    requires Good(l, p) && ValidClasses(c)
    ensures var r := NormalStage(l, p, c, maxCount, bound); Good(l, Debit(l, p, Flat(r.plans))) && Good(l, Debit(l, p, Spent(r)))
  {
    var es := MountEntries(c.mount);
    MountEntriesValid(c.mount);
    DebitNil(l, p);
    assert Spent(Run([], [], false)) == [];
    if NoWork(c) {
      var r := Run(Copies(maxCount, es), [], false);
      assert Spent(r) == Flat(r.plans);
      FreeMounts(l, p, c.mount, maxCount);
    } else if bound >= 1 {
      PassKeepsGood(l, c.normal, c.mount);
      RepeatKeeps(l, p, PassOf(l, c.normal, c.mount), bound, GoodOf(l));
    } else if c.normal == [] {
      CheckedPassGood(l, p, es);
      var w := CheckedPass(l, p, es).entries;
      assert [] + w == w;
    }
  }

  /** Mount bindings that ask for no quota change nothing. */
  lemma FreeMounts(l: Topology, p: Pool, mount: seq<VolumeBinding>, k: nat)
    requires Good(l, p) && ValidAll(mount) && !AnyRequireIOPS(mount)
    ensures Good(l, Debit(l, p, Flat(Copies(k, MountEntries(mount)))))
    ensures Debit(l, p, Flat(Copies(k, MountEntries(mount)))).quotas == p.quotas
  {
    var es := MountEntries(mount);
    MountEntriesFree(l, mount);
    FreePays(l, p.quotas, es, k);
    MountRun(l, p, mount, k);
    FreeCopies(l, p.quotas, es, k);
  }

  lemma FreePays(l: Topology, qs: seq<Quota>, es: seq<Entry>, k: nat)
    requires Free(es) && NonNegativeQuotas(qs)
    ensures Pays(l, qs, es, k)
  {
    forall j, m | 0 <= j < |qs| ensures k * QuotaOn(l, es, j, m) <= qs[j].Get(m) {
      FreeEntries(l, es, j, m);
      MeterZero(qs[j], m);
    }
  }

  lemma FreeCopies(l: Topology, qs: seq<Quota>, es: seq<Entry>, k: nat)
    requires Free(es)
    ensures DebitQuotas(l, qs, Flat(Copies(k, es))) == qs
  {
    var d := DebitQuotas(l, qs, Flat(Copies(k, es)));
    forall j | 0 <= j < |qs| ensures d[j] == qs[j] {
      forall m: Meter ensures d[j].Get(m) == qs[j].Get(m) {
        CopiesDraw(l, k, es, j, m);
        FreeEntries(l, es, j, m);
      }
      EqualByMeter(d[j], qs[j]);
    }
  }

  ghost predicate Free(es: seq<Entry>) {
    forall e :: e in es ==> e.binding.quota.NonNegative() && !e.binding.RequireIOPS()
  }

  lemma MountEntriesFree(l: Topology, mount: seq<VolumeBinding>)
    requires ValidAll(mount) && !AnyRequireIOPS(mount)
    ensures Free(MountEntries(mount)) && OnDisks(l, MountEntries(mount))
  {
    var es := MountEntries(mount);
    forall e | e in es ensures e.binding.quota.NonNegative() && !e.binding.RequireIOPS() {
      var i :| 0 <= i < |es| && es[i] == e;
      assert mount[i] in mount;
    }
  }

  lemma FreeEntries(l: Topology, es: seq<Entry>, j: nat, m: Meter)
    requires Free(es)
    ensures QuotaOn(l, es, j, m) == 0
  {
    forall e | e in es ensures MeterAt(l, j, m)(e) == 0 {
      MeterZero(e.binding.quota, m);
    }
    SumZero(MeterAt(l, j, m), es);
  }

  lemma FreeQuotas(l: Topology, qs: seq<Quota>, es: seq<Entry>)
    requires Free(es)
    ensures DebitQuotas(l, qs, es) == qs
  {
    var d := DebitQuotas(l, qs, es);
    forall j | 0 <= j < |qs| ensures d[j] == qs[j] {
      forall m: Meter ensures d[j].Get(m) == qs[j].Get(m) {
        FreeEntries(l, es, j, m);
      }
      EqualByMeter(d[j], qs[j]);
    }
  }

  /** Requests without quota leave the quotas as they are. */
  lemma OnePassFree(l: Topology, p: Pool, normal: seq<VolumeBinding>, mount: seq<VolumeBinding>)
    requires ValidAll(normal) && ValidAll(mount) && !AnyRequireIOPS(normal) && !AnyRequireIOPS(mount)
    ensures Free(OnePass(l, p, normal, mount).entries)
  {
    var n := NormalPass(l, p, normal).entries;
    NormalPassServes(l, p, normal);
    forall e | e in n ensures e.binding.quota.NonNegative() && !e.binding.RequireIOPS() {
      var k :| 0 <= k < |n| && n[k] == e;
      assert normal[k] in normal;
    }
    MountEntriesFree(l, mount);
    CheckedPassPrefix(l, Debit(l, p, n), MountEntries(mount));
  }

  ghost function SameQuotas(qs: seq<Quota>): Pool -> bool {
    (p: Pool) => p.quotas == qs
  }

  lemma StageFree(l: Topology, p: Pool, c: RequestClasses, maxCount: nat, bound: int)
    requires Good(l, p) && ValidClasses(c) && !AnyRequireIOPS(c.normal) && !AnyRequireIOPS(c.mount)
    ensures QuotasAfter(l, p, NormalStage(l, p, c, maxCount, bound)) == p.quotas
  {
    var es := MountEntries(c.mount);
    var r := NormalStage(l, p, c, maxCount, bound);
    DebitNil(l, p);
    assert Spent(Run([], [], false)) == [];
    if NoWork(c) {
      assert Spent(r) == Flat(r.plans);
      FreeMounts(l, p, c.mount, maxCount);
    } else if bound >= 1 {
      var once := PassOf(l, c.normal, c.mount);
      forall q: Pool ensures StepKeeps(l, once, SameQuotas(p.quotas), q) {
        OnePassFree(l, q, c.normal, c.mount);
        FreeQuotas(l, q.quotas, once(q).entries);
      }
      RepeatKeeps(l, p, once, bound, SameQuotas(p.quotas));
    }
  }

  /** All volumes the monopoly groups would take after a normal run, uncut. */
  function MonoAll(l: Topology, share: Share, p: Pool, c: RequestClasses, run: Run): seq<Volume> {
    MonoRun(l, share, p.unused, QuotasAfter(l, p, run), c.mono, |p.unused|, |p.unused|)
  }

  /** Cutting the monopoly groups at a bound takes the first of them. */
  lemma TakenPrefix(l: Topology, share: Share, p: Pool, c: RequestClasses, run: Run, bound: nat)
    ensures var all := MonoAll(l, share, p, c, run); var r := MonoRun(l, share, p.unused, QuotasAfter(l, p, run), c.mono, |p.unused|, bound);
      if |all| <= bound then r == all else r == all[..bound]
  {
    var n := |p.unused|;
    var qs := QuotasAfter(l, p, run);
    if bound <= n {
      MonoRunPrefix(l, share, p.unused, qs, c.mono, n, bound, n);
    } else {
      MonoRunPrefix(l, share, p.unused, qs, c.mono, n, n, bound);
    }
  }

  /** Uncoupled, the monopoly groups do not see how many normal plans were made. */
  lemma UncoupledMono(l: Topology, share: Share, p: Pool, c: RequestClasses, m: nat, b: int, m': nat, b': int)
    requires Good(l, p) && ValidClasses(c) && c.mono != [] && !Coupled(c)
    ensures MonoAll(l, share, p, c, NormalStage(l, p, c, m, b)) == MonoAll(l, share, p, c, NormalStage(l, p, c, m', b'))
  {
    var r, r' := NormalStage(l, p, c, m, b), NormalStage(l, p, c, m', b');
    StageGood(l, p, c, m, b);
    StageGood(l, p, c, m', b');
    if !AnyRequireIOPS(c.mono) {
      MonoRunIgnoresQuotas(l, share, p.unused, QuotasAfter(l, p, r), QuotasAfter(l, p, r'), c.mono, |p.unused|, |p.unused|);
    } else {
      StageFree(l, p, c, m, b);
      StageFree(l, p, c, m', b');
    }
  }

  /** What two evaluations of a host with bounds b <= b' have in common. */
  lemma StagesCompare(l: Topology, p: Pool, c: RequestClasses, m: nat, b: int, m': nat, b': int)
    requires !NoWork(c) && 1 <= b <= b'
    ensures var r, r' := NormalStage(l, p, c, m, b), NormalStage(l, p, c, m', b');
      && |r.plans| == Min(|r'.plans|, b) && r.plans == r'.plans[..|r.plans|]
      && (|r'.plans| < b ==> r == r')
  {
    RepeatPrefix(l, p, PassOf(l, c.normal, c.mount), b, b');
  }
}
