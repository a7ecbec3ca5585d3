/** Why enumeration without a bound ends: every plan uses up free bytes or free quota. */
module Termination {
  import opened Quantity
  import opened Options
  import opened Bindings
  import opened Disks
  import opened Volumes
  import opened Sums
  import opened Charges
  import opened Repetition
  import opened Passes

  function SizeOf(): Volume -> int {
    (v: Volume) => v.size
  }

  function QuotaSum(): Quota -> int {
    (q: Quota) => q.readIOPS + q.writeIOPS + q.readBPS + q.writeBPS
  }

  /** Total free bytes on used volumes plus total free quota. */
  function Worth(p: Pool): int {
    SumBy(SizeOf(), p.used) + SumBy(QuotaSum(), p.quotas)
  }

  function WorthOf(): Pool -> int {
    (p: Pool) => Worth(p)
  }

  lemma {:induction false} SumPointwise<T>(f: T -> int, s: seq<T>, t: seq<T>, k: int)
    requires |s| == |t| && forall i :: 0 <= i < |s| ==> f(s[i]) <= f(t[i])
    ensures SumBy(f, s) <= SumBy(f, t)
    ensures 0 <= k < |s| && f(s[k]) < f(t[k]) ==> SumBy(f, s) < SumBy(f, t)
  {
    if s != [] {
      SumPointwise(f, s[..|s| - 1], t[..|t| - 1], k);
    }
  }

  /** There is something every plan draws: a normal request that is not unlimited, or a mount quota. */
  ghost predicate HasWork(normal: seq<VolumeBinding>, mount: seq<VolumeBinding>) {
    (normal != [] && (normal[0].size > 0 || normal[0].RequireIOPS())) || AnyRequireIOPS(mount)
  }

  /** Charges that are not negative, one of which draws bytes from a listed volume or quota from a disk. */
  lemma ChargesUseWorth(l: Topology, p: Pool, es: seq<Entry>, e: Entry)
    requires Good(l, p) && NonNegativeCharges(es) && e in es
    requires (e.size > 0 && Listed(p.used, e.device)) || (e.binding.RequireIOPS() && l.Disk(e.device).Some?)
    ensures Worth(Debit(l, p, es)) < Worth(p)
  {
    var d := Debit(l, p, es);
    forall i | 0 <= i < |d.used| ensures SizeOf()(d.used[i]) <= SizeOf()(p.used[i]) {
      BytesNonNegative(es, p.used[i].device);
    }
    forall j | 0 <= j < |d.quotas| ensures QuotaSum()(d.quotas[j]) <= QuotaSum()(p.quotas[j]) {
      QuotasShrink(l, p, es, j);
    }
    if e.size > 0 && Listed(p.used, e.device) {
      var v :| v in p.used && v.device == e.device;
      var k :| 0 <= k < |p.used| && p.used[k] == v;
      BytesNonNegative(es, v.device);
      SumPointwise(SizeOf(), d.used, p.used, k);
      SumPointwise(QuotaSum(), d.quotas, p.quotas, -1);
    } else {
      var j := l.Disk(e.device).value;
      SomeMeterShrinks(l, p, es, e, j);
      SumPointwise(SizeOf(), d.used, p.used, -1);
      SumPointwise(QuotaSum(), d.quotas, p.quotas, j);
    }
  }

  lemma QuotasShrink(l: Topology, p: Pool, es: seq<Entry>, j: nat)
    requires NonNegativeCharges(es) && j < |p.quotas|
    ensures var d := DebitQuotas(l, p.quotas, es); d[j].Leq(p.quotas[j]) && QuotaSum()(d[j]) <= QuotaSum()(p.quotas[j])
  {
    var d := DebitQuotas(l, p.quotas, es);
    forall m: Meter ensures d[j].Get(m) <= p.quotas[j].Get(m) {
      QuotaNonNegative(l, es, j, m);
    }
    LeqByMeter(d[j], p.quotas[j]);
  }

  lemma SomeMeterShrinks(l: Topology, p: Pool, es: seq<Entry>, e: Entry, j: nat)
    requires NonNegativeCharges(es) && e in es && e.binding.RequireIOPS() && l.Disk(e.device) == Some(j) && j < |p.quotas|
    ensures QuotaSum()(DebitQuotas(l, p.quotas, es)[j]) < QuotaSum()(p.quotas[j])
  {
    var d := DebitQuotas(l, p.quotas, es);
    QuotasShrink(l, p, es, j);
    var m := PositiveMeter(e.binding.quota);
    QuotaNonNegative(l, es, j, m);
    assert d[j].Get(m) < p.quotas[j].Get(m);
  }

  lemma PositiveMeter(q: Quota) returns (m: Meter)
    requires q.Positive()
    ensures q.Get(m) > 0
  {
    m := if q.readIOPS > 0 then ReadIOPS else if q.writeIOPS > 0 then WriteIOPS else if q.readBPS > 0 then ReadBPS else WriteBPS;
  }

  lemma {:induction false} NormalPassOnDisks(l: Topology, p: Pool, reqs: seq<VolumeBinding>)
    ensures OnDisks(l, NormalPass(l, p, reqs).entries)
  {
    if reqs != [] {
      NormalPassOnDisks(l, p, reqs[..|reqs| - 1]);
    }
  }

  lemma {:induction false} CheckedPassOnDisks(l: Topology, p: Pool, es: seq<Entry>)
    ensures OnDisks(l, CheckedPass(l, p, es).entries)
  {
    if es != [] {
      CheckedPassOnDisks(l, p, es[..|es| - 1]);
      assert es == es[..|es| - 1] + [es[|es| - 1]];
    }
  }

  lemma {:induction false} NormalPassNonNegative(l: Topology, p: Pool, reqs: seq<VolumeBinding>)
    requires ValidAll(reqs)
    ensures NonNegativeCharges(NormalPass(l, p, reqs).entries)
  {
    NormalPassServes(l, p, reqs);
    var es := NormalPass(l, p, reqs).entries;
    forall e | e in es ensures e.size >= 0 && e.binding.quota.NonNegative() {
      var k :| 0 <= k < |es| && es[k] == e;
      assert reqs[k] in reqs;
    }
  }

  lemma {:induction false} CheckedPassPrefix(l: Topology, p: Pool, es: seq<Entry>)
    ensures CheckedPass(l, p, es).entries <= es
  {
    if es != [] {
      CheckedPassPrefix(l, p, es[..|es| - 1]);
    }
  }

  lemma OnePassNonNegative(l: Topology, p: Pool, normal: seq<VolumeBinding>, mount: seq<VolumeBinding>)
    requires ValidAll(normal) && ValidAll(mount)
    ensures NonNegativeCharges(OnePass(l, p, normal, mount).entries)
  {
    NormalPassNonNegative(l, p, normal);
    MountEntriesValid(mount);
    CheckedPassPrefix(l, Debit(l, p, NormalPass(l, p, normal).entries), MountEntries(mount));
  }

  /** Every successful plan strictly lowers total free bytes plus total free quota. */
  lemma OnePassUsesWorth(l: Topology, p: Pool, normal: seq<VolumeBinding>, mount: seq<VolumeBinding>)
    requires Good(l, p) && ValidAll(normal) && ValidAll(mount) && HasWork(normal, mount)
    requires OnePass(l, p, normal, mount).ok
    ensures Worth(Debit(l, p, OnePass(l, p, normal, mount).entries)) < Worth(p)
  {
    var es := OnePass(l, p, normal, mount).entries;
    OnePassNonNegative(l, p, normal, mount);
    NormalPassServes(l, p, normal);
    NormalPassOnDisks(l, p, normal);
    if normal != [] && (normal[0].size > 0 || normal[0].RequireIOPS()) {
      var n := NormalPass(l, p, normal).entries;
      assert n[0] in n && n[0] in es;
      ChargesUseWorth(l, p, es, n[0]);
    } else {
      var d := Debit(l, p, NormalPass(l, p, normal).entries);
      CheckedPassOnDisks(l, d, MountEntries(mount));
      var b :| b in mount && b.RequireIOPS();
      var i :| 0 <= i < |mount| && mount[i] == b;
      var e := MountEntries(mount)[i];
      assert e in MountEntries(mount) && e in es;
      ChargesUseWorth(l, p, es, e);
    }
  }

  lemma {:induction false} SumOfSizes(vs: seq<Volume>)
    requires NonNegative(vs)
    ensures SumBy(SizeOf(), vs) >= 0
  {
    SumNonNegative(SizeOf(), vs);
  }

  lemma WorthNonNegative(l: Topology, p: Pool)
    requires Good(l, p)
    ensures Worth(p) >= 0
  {
    SumOfSizes(p.used);
    forall q | q in p.quotas ensures QuotaSum()(q) >= 0 {
      var j :| 0 <= j < |p.quotas| && p.quotas[j] == q;
    }
    SumNonNegative(QuotaSum(), p.quotas);
  }

  ghost function GoodOf(l: Topology): Pool -> bool {
    (p: Pool) => Good(l, p)
  }

  /** Passes of valid requests keep the host good. */
  lemma PassKeepsGood(l: Topology, normal: seq<VolumeBinding>, mount: seq<VolumeBinding>)
    requires ValidAll(normal) && ValidAll(mount)
    ensures forall q: Pool :: StepKeeps(l, PassOf(l, normal, mount), GoodOf(l), q)
  {
    forall q: Pool ensures StepKeeps(l, PassOf(l, normal, mount), GoodOf(l), q) {
      if GoodOf(l)(q) {
        OnePassGood(l, q, normal, mount);
      }
    }
  }

  /**
   * However large the bound, a run makes no more plans than the host's free bytes and quota together, so the
   * enumeration that is bounded only by the largest integer ends, and ends with a failed pass.
   */
  lemma EnumerationEnds(l: Topology, p: Pool, normal: seq<VolumeBinding>, mount: seq<VolumeBinding>, bound: nat)
    requires Good(l, p) && ValidAll(normal) && ValidAll(mount) && HasWork(normal, mount)
    ensures |Repeat(l, p, PassOf(l, normal, mount), bound).plans| <= Worth(p)
    ensures bound > Worth(p) ==> Repeat(l, p, PassOf(l, normal, mount), bound).stopped
  {
    var once := PassOf(l, normal, mount);
    PassKeepsGood(l, normal, mount);
    forall q: Pool ensures StepUses(l, once, GoodOf(l), WorthOf(), q) {
      if GoodOf(l)(q) {
        WorthNonNegative(l, q);
        if once(q).ok {
          OnePassUsesWorth(l, q, normal, mount);
        }
      }
    }
    RepeatEnds(l, p, once, bound, GoodOf(l), WorthOf());
    RepeatKeeps(l, p, once, bound, GoodOf(l));
    WorthNonNegative(l, Debit(l, p, Flat(Repeat(l, p, once, bound).plans)));
  }

  // ---- One meter alone

  function MeterOf(m: Meter): Quota -> int {
    (q: Quota) => q.Get(m)
  }

  /** What all disks of a host have left of one quota. */
  function FreeOn(p: Pool, m: Meter): int {
    SumBy(MeterOf(m), p.quotas)
  }

  function FreeOf(m: Meter): Pool -> int {
    (p: Pool) => FreeOn(p, m)
  }

  /** Some normal or mount request asks for this quota. */
  ghost predicate Asked(normal: seq<VolumeBinding>, mount: seq<VolumeBinding>, m: Meter) {
    exists b :: (b in normal || b in mount) && b.quota.Get(m) > 0
  }

  lemma AsksIOPS(b: VolumeBinding, m: Meter)
    requires b.quota.Get(m) > 0
    ensures b.RequireIOPS()
  {
  }

  /** A successful plan has an entry of every request it makes. */
  lemma OnePassHas(l: Topology, p: Pool, normal: seq<VolumeBinding>, mount: seq<VolumeBinding>, b: VolumeBinding) returns (e: Entry)
    requires OnePass(l, p, normal, mount).ok && (b in normal || b in mount)
    ensures e in OnePass(l, p, normal, mount).entries && e.binding == b
    ensures b.RequireIOPS() ==> l.Disk(e.device).Some?
  {
    var n := NormalPass(l, p, normal);
    if b in normal {
      NormalPassServes(l, p, normal);
      NormalPassOnDisks(l, p, normal);
      var k :| 0 <= k < |normal| && normal[k] == b;
      e := n.entries[k];
      assert e in n.entries;
    } else {
      CheckedPassOnDisks(l, Debit(l, p, n.entries), MountEntries(mount));
      var k :| 0 <= k < |mount| && mount[k] == b;
      e := MountEntries(mount)[k];
      assert e in MountEntries(mount);
    }
  }

  /** Every successful plan lowers what is left of a quota that it asks for. */
  lemma OnePassUsesMeter(l: Topology, p: Pool, normal: seq<VolumeBinding>, mount: seq<VolumeBinding>, m: Meter)
    requires Good(l, p) && ValidAll(normal) && ValidAll(mount) && Asked(normal, mount, m) && OnePass(l, p, normal, mount).ok
    ensures FreeOn(Debit(l, p, OnePass(l, p, normal, mount).entries), m) < FreeOn(p, m)
  {
    var b :| (b in normal || b in mount) && b.quota.Get(m) > 0;
    AsksIOPS(b, m);
    var e := OnePassHas(l, p, normal, mount, b);
    OnePassNonNegative(l, p, normal, mount);
    hide OnePass;
    MeterUsed(l, p, OnePass(l, p, normal, mount).entries, e, m);
  }

  lemma MeterUsed(l: Topology, p: Pool, es: seq<Entry>, e: Entry, m: Meter)
    requires |p.quotas| == |l.slots| && NonNegativeCharges(es) && e in es && e.binding.quota.Get(m) > 0 && l.Disk(e.device).Some?
    ensures FreeOn(Debit(l, p, es), m) < FreeOn(p, m)
  {
    var d, j := DebitQuotas(l, p.quotas, es), l.Disk(e.device).value;
    forall i | 0 <= i < |d| ensures MeterOf(m)(d[i]) <= MeterOf(m)(p.quotas[i]) {
      QuotaNonNegative(l, es, i, m);
    }
    QuotaNonNegative(l, es, j, m);
    SumPointwise(MeterOf(m), d, p.quotas, j);
  }

  lemma FreeNonNegative(l: Topology, p: Pool, m: Meter)
    requires Good(l, p)
    ensures FreeOn(p, m) >= 0
  {
    forall q | q in p.quotas ensures MeterOf(m)(q) >= 0 {
      var j :| 0 <= j < |p.quotas| && p.quotas[j] == q;
      MeterZero(q, m);
    }
    SumNonNegative(MeterOf(m), p.quotas);
  }

  /** A run that asks for a quota ends within what all disks have left of it. */
  lemma MeterEnds(l: Topology, p: Pool, normal: seq<VolumeBinding>, mount: seq<VolumeBinding>, m: Meter, bound: nat)
    requires Good(l, p) && ValidAll(normal) && ValidAll(mount) && Asked(normal, mount, m)
    ensures |Repeat(l, p, PassOf(l, normal, mount), bound).plans| <= FreeOn(p, m)
    ensures bound > FreeOn(p, m) ==> Repeat(l, p, PassOf(l, normal, mount), bound).stopped
  {
    var once := PassOf(l, normal, mount);
    PassKeepsGood(l, normal, mount);
    forall q: Pool ensures StepUses(l, once, GoodOf(l), FreeOf(m), q) {
      if GoodOf(l)(q) {
        FreeNonNegative(l, q, m);
        if once(q).ok {
          OnePassUsesMeter(l, q, normal, mount, m);
        }
      }
    }
    RepeatEnds(l, p, once, bound, GoodOf(l), FreeOf(m));
    RepeatKeeps(l, p, once, bound, GoodOf(l));
    FreeNonNegative(l, Debit(l, p, Flat(Repeat(l, p, once, bound).plans)), m);
  }
}
