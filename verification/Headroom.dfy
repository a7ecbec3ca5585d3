/** How many more times a disk can pay for one sum of quotas, and what the closed form of mount passes rests on. */
module Headroom {
  import opened Quantity
  import opened Options
  import opened Bindings
  import opened Disks
  import opened Charges
  import opened Repetition
  import opened Passes
  import opened Reordering
  import opened MountPasses
  import opened Termination

  /** One meter's part in quotaHeadroom. */
  function Within(head: int, left: int, sum: int): int {
    if sum > 0 then Min(head, left / sum) else head
  }

  /** quotaHeadroom, for quotas that are not negative. */
  function QuotaHeadroom(left: Quota, sum: Quota): int {
    Within(Within(Within(Within(MAX_INT, left.readIOPS, sum.readIOPS), left.writeIOPS, sum.writeIOPS),
      left.readBPS, sum.readBPS), left.writeBPS, sum.writeBPS)
  }

  lemma DivisionFits(left: int, sum: int, k: int)
    requires left >= 0 && sum > 0 && k >= 0
    ensures k <= left / sum <==> k * sum <= left
  {
    var d := left / sum;
    assert left == d * sum + left % sum;
    if k <= d {
      assert k * sum <= d * sum;
    } else {
      assert k * sum >= (d + 1) * sum;
    }
  }

  lemma WithinFits(head: int, left: int, sum: int, k: int)
    requires left >= 0 && sum >= 0 && k >= 0
    ensures k <= Within(head, left, sum) <==> k <= head && k * sum <= left
  {
    if sum > 0 {
      DivisionFits(left, sum, k);
    }
  }

  /** The headroom is the largest number of times the sum fits into what is left. */
  lemma HeadroomExact(left: Quota, sum: Quota, k: nat)
    requires left.NonNegative() && sum.NonNegative() && k <= MAX_INT
    ensures k <= QuotaHeadroom(left, sum) <==> forall m: Meter :: k * sum.Get(m) <= left.Get(m)
  {
    var a := Within(MAX_INT, left.readIOPS, sum.readIOPS);
    var b := Within(a, left.writeIOPS, sum.writeIOPS);
    var c := Within(b, left.readBPS, sum.readBPS);
    WithinFits(MAX_INT, left.readIOPS, sum.readIOPS, k);
    WithinFits(a, left.writeIOPS, sum.writeIOPS, k);
    WithinFits(b, left.readBPS, sum.readBPS, k);
    WithinFits(c, left.writeBPS, sum.writeBPS, k);
    if forall m: Meter :: k * sum.Get(m) <= left.Get(m) {
      assert k * sum.Get(ReadIOPS) <= left.Get(ReadIOPS) && k * sum.Get(WriteIOPS) <= left.Get(WriteIOPS);
      assert k * sum.Get(ReadBPS) <= left.Get(ReadBPS) && k * sum.Get(WriteBPS) <= left.Get(WriteBPS);
    }
  }

  /** Every meter is a 64-bit value that is not negative. */
  predicate InRange(q: Quota) {
    q.NonNegative() && q.Leq(Quota(MAX_INT, MAX_INT, MAX_INT, MAX_INT))
  }

  lemma RangeByMeter(q: Quota)
    ensures InRange(q) <==> forall m: Meter :: 0 <= q.Get(m) <= MAX_INT
  {
    if forall m: Meter :: 0 <= q.Get(m) <= MAX_INT {
      assert 0 <= q.Get(ReadIOPS) <= MAX_INT && 0 <= q.Get(WriteIOPS) <= MAX_INT;
      assert 0 <= q.Get(ReadBPS) <= MAX_INT && 0 <= q.Get(WriteBPS) <= MAX_INT;
    }
  }

  /** After one pass was charged, one more than the headroom and every multiple up to it are 64-bit values. */
  lemma NoOverflow(before: Quota, left: Quota, sum: Quota, k: nat)
    requires InRange(before) && left == before.Minus(sum) && left.NonNegative() && sum.NonNegative() && sum.Positive()
    requires k <= QuotaHeadroom(left, sum)
    ensures InRange(sum) && 0 <= QuotaHeadroom(left, sum) < MAX_INT && InRange(sum.Times(k))
  {
    HeadroomNonNegative(left, sum);
    var m := PositiveMeter(sum);
    RangeByMeter(before);
    assert left.Get(m) == before.Get(m) - sum.Get(m) < MAX_INT <= MAX_INT * sum.Get(m);
    HeadroomExact(left, sum, MAX_INT);
    HeadroomExact(left, sum, k);
    TimesRange(before, left, sum, k);
  }

  lemma TimesRange(before: Quota, left: Quota, sum: Quota, k: nat)
    requires InRange(before) && left == before.Minus(sum) && left.NonNegative() && sum.NonNegative()
    requires forall m: Meter :: k * sum.Get(m) <= left.Get(m)
    ensures InRange(sum) && InRange(sum.Times(k))
  {
    forall m: Meter ensures 0 <= sum.Get(m) <= MAX_INT && 0 <= sum.Times(k).Get(m) <= MAX_INT {
      RangeByMeter(before);
      MeterZero(sum, m);
      MeterZero(left, m);
      assert left.Get(m) == before.Get(m) - sum.Get(m);
      assert sum.Times(k).Get(m) == k * sum.Get(m);
    }
    RangeByMeter(sum);
    RangeByMeter(sum.Times(k));
  }

  // ---- The sums per disk

  /** Sums holds, for each disk a request with quota resolves to, the total of those requests. */
  ghost predicate Summed(l: Topology, es: seq<Entry>, sums: map<nat, Quota>) {
    && (forall j :: j in sums ==> j < |l.slots| && sums[j].NonNegative() && sums[j].Positive() && HoldsSum(l, es, j, sums[j]))
    && forall j :: 0 <= j < |l.slots| && j !in sums ==> DrawsNothing(l, es, j)
  }

  ghost predicate HoldsSum(l: Topology, es: seq<Entry>, j: nat, sum: Quota) {
    forall m: Meter :: sum.Get(m) == QuotaOn(l, es, j, m)
  }

  ghost predicate DrawsNothing(l: Topology, es: seq<Entry>, j: nat) {
    forall m: Meter :: QuotaOn(l, es, j, m) == 0
  }

  /** A request without quota changes no sum. */
  lemma SummedSkip(l: Topology, es: seq<Entry>, e: Entry, sums: map<nat, Quota>)
    requires Summed(l, es, sums) && e.binding.quota.NonNegative() && !e.binding.RequireIOPS()
    ensures Summed(l, es + [e], sums)
  {
    forall j: nat, m: Meter ensures QuotaOn(l, es + [e], j, m) == QuotaOn(l, es, j, m) {
      QuotaAppend(l, es, e, j, m);
      MeterZero(e.binding.quota, m);
    }
    forall j | j in sums ensures HoldsSum(l, es + [e], j, sums[j]) {
      assert HoldsSum(l, es, j, sums[j]);
    }
    forall j | 0 <= j < |l.slots| && j !in sums ensures DrawsNothing(l, es + [e], j) {
      assert DrawsNothing(l, es, j);
    }
  }

  /** A request with quota adds to the sum of its disk. */
  lemma SummedAdd(l: Topology, es: seq<Entry>, e: Entry, sums: map<nat, Quota>, i: nat, sum: Quota)
    requires Summed(l, es, sums) && e.binding.quota.NonNegative() && e.binding.RequireIOPS() && l.Disk(e.device) == Some(i)
    requires if i in sums then sum == sums[i] else sum == Quota(0, 0, 0, 0)
    ensures Summed(l, es + [e], sums[i := sum.Plus(e.binding.quota)])
  {
    var sums' := sums[i := sum.Plus(e.binding.quota)];
    forall j: nat, m: Meter
      ensures QuotaOn(l, es + [e], j, m) == QuotaOn(l, es, j, m) + if j == i then e.binding.quota.Get(m) else 0
    {
      QuotaAppend(l, es, e, j, m);
    }
    assert forall m: Meter :: sum.Get(m) == QuotaOn(l, es, i, m) by {
      if i in sums {
        assert HoldsSum(l, es, i, sums[i]);
      } else {
        assert DrawsNothing(l, es, i);
      }
    }
    forall j | j in sums' ensures HoldsSum(l, es + [e], j, sums'[j]) {
      if j != i {
        assert HoldsSum(l, es, j, sums[j]);
      } else {
        forall m: Meter ensures sums'[i].Get(m) == QuotaOn(l, es + [e], i, m) {
          assert sums'[i].Get(m) == sum.Get(m) + e.binding.quota.Get(m);
        }
      }
    }
    forall j | 0 <= j < |l.slots| && j !in sums' ensures DrawsNothing(l, es + [e], j) {
      assert DrawsNothing(l, es, j);
    }
  }

  /** The quotas pay for k more passes exactly when every sum has that headroom. */
  lemma PaysIffHeadroom(l: Topology, qs: seq<Quota>, es: seq<Entry>, sums: map<nat, Quota>, k: nat)
    requires Summed(l, es, sums) && |qs| == |l.slots| && NonNegativeQuotas(qs) && k <= MAX_INT
    ensures Pays(l, qs, es, k) <==> forall j :: j in sums ==> k <= QuotaHeadroom(qs[j], sums[j])
  {
    forall j | j in sums ensures k <= QuotaHeadroom(qs[j], sums[j]) <==> forall m: Meter :: k * QuotaOn(l, es, j, m) <= qs[j].Get(m) {
      HeadroomExact(qs[j], sums[j], k);
      assert HoldsSum(l, es, j, sums[j]);
    }
    if forall j :: j in sums ==> k <= QuotaHeadroom(qs[j], sums[j]) {
      forall j, m | 0 <= j < |qs| ensures k * QuotaOn(l, es, j, m) <= qs[j].Get(m) {
        if j !in sums {
          assert DrawsNothing(l, es, j);
          MeterZero(qs[j], m);
        }
      }
    }
  }

  // ---- One pass and k more

  lemma CopiesFromFront(k: nat, es: seq<Entry>)
    ensures Flat(Copies(k + 1, es)) == es + Flat(Copies(k, es))
  {
    assert Copies(k + 1, es) == [es] + Copies(k, es);
    FlatConcat([es], Copies(k, es));
    assert [es][..0] == [] && Flat([es]) == es;
  }

  /** What is left after one pass pays for k passes exactly when the whole pays for k + 1. */
  lemma PaysAfterOne(l: Topology, p: Pool, es: seq<Entry>, k: nat)
    ensures Pays(l, Debit(l, p, es).quotas, es, k) <==> Pays(l, p.quotas, es, k + 1)
  {
    var d := Debit(l, p, es).quotas;
    forall j, m | 0 <= j < |d|
      ensures k * QuotaOn(l, es, j, m) <= d[j].Get(m) <==> (k + 1) * QuotaOn(l, es, j, m) <= p.quotas[j].Get(m)
    {
      assert (k + 1) * QuotaOn(l, es, j, m) == k * QuotaOn(l, es, j, m) + QuotaOn(l, es, j, m);
    }
    if Pays(l, d, es, k) {
      forall j, m | 0 <= j < |p.quotas| ensures (k + 1) * QuotaOn(l, es, j, m) <= p.quotas[j].Get(m) {
        assert k * QuotaOn(l, es, j, m) <= d[j].Get(m);
      }
    }
    if Pays(l, p.quotas, es, k + 1) {
      forall j, m | 0 <= j < |d| ensures k * QuotaOn(l, es, j, m) <= d[j].Get(m) {
        assert (k + 1) * QuotaOn(l, es, j, m) <= p.quotas[j].Get(m);
      }
    }
  }

  /** Quotas after k more passes, disk by disk. */
  ghost predicate LessTimes(qs: seq<Quota>, sums: map<nat, Quota>, k: nat, r: seq<Quota>) {
    |r| == |qs| && forall j: nat :: j < |qs| ==> r[j] == if j in sums then qs[j].Minus(sums[j].Times(k)) else qs[j]
  }

  lemma LessTimesIsDebit(l: Topology, p: Pool, es: seq<Entry>, sums: map<nat, Quota>, k: nat, r: seq<Quota>)
    requires Summed(l, es, sums) && |p.quotas| == |l.slots| && LessTimes(p.quotas, sums, k, r)
    requires forall e :: e in es ==> e.size == 0
    ensures Pool(p.used, p.unused, r) == Debit(l, p, Flat(Copies(k, es)))
  {
    var d := Debit(l, p, Flat(Copies(k, es)));
    forall device ensures BytesOn(Flat(Copies(k, es)), device) == 0 {
      CopiesNoBytes(k, es, device);
    }
    VolumesUntouched(p.used, Flat(Copies(k, es)));
    VolumesUntouched(p.unused, Flat(Copies(k, es)));
    forall j | 0 <= j < |r| ensures r[j] == d.quotas[j] {
      forall m: Meter ensures r[j].Get(m) == d.quotas[j].Get(m) {
        CopiesDraw(l, k, es, j, m);
        if j in sums {
          assert HoldsSum(l, es, j, sums[j]);
          assert sums[j].Times(k).Get(m) == k * sums[j].Get(m);
        } else {
          assert DrawsNothing(l, es, j);
        }
      }
      EqualByMeter(r[j], d.quotas[j]);
    }
  }

  /** The run of mount passes when the first one fails. */
  lemma MountRunFails(l: Topology, p: Pool, mount: seq<VolumeBinding>, bound: nat)
    requires bound >= 1 && !CheckedPass(l, p, MountEntries(mount)).ok
    ensures Repeat(l, p, PassOf(l, [], mount), bound) == Run([], CheckedPass(l, p, MountEntries(mount)).entries, true)
  {
    var once := PassOf(l, [], mount);
    DebitNil(l, p);
    MountOnePass(l, p, mount);
    assert Repeat(l, p, once, 0) == Run([], [], false);
    RepeatSpends(l, p, once, 1);
    RepeatPrefix(l, p, once, 1, bound);
  }

  /** After one successful pass nothing the closed form computes leaves the 64-bit range. */
  ghost predicate NothingOverflows(qs: seq<Quota>, sums: map<nat, Quota>)
    requires forall j :: j in sums ==> j < |qs|
  {
    forall j :: j in sums ==> SafeSum(qs[j], sums[j])
  }

  ghost predicate SafeSum(left: Quota, sum: Quota) {
    && InRange(sum) && 0 <= QuotaHeadroom(left, sum) < MAX_INT
    && forall k: nat :: k <= QuotaHeadroom(left, sum) ==> InRange(sum.Times(k))
  }

  lemma AllInRange(l: Topology, p: Pool, es: seq<Entry>, sums: map<nat, Quota>)
    requires Summed(l, es, sums) && |p.quotas| == |l.slots| && forall j :: 0 <= j < |p.quotas| ==> InRange(p.quotas[j])
    requires NonNegativeQuotas(Debit(l, p, es).quotas)
    ensures NothingOverflows(Debit(l, p, es).quotas, sums)
  {
    var d := Debit(l, p, es).quotas;
    forall j | j in sums ensures SafeSum(d[j], sums[j]) {
      SumInRange(l, p.quotas[j], es, j, sums[j]);
    }
  }

  lemma SumInRange(l: Topology, before: Quota, es: seq<Entry>, j: nat, sum: Quota)
    requires HoldsSum(l, es, j, sum) && InRange(before) && sum.NonNegative() && sum.Positive()
    requires DebitQuota(l, before, es, j).NonNegative()
    ensures SafeSum(DebitQuota(l, before, es, j), sum)
  {
    var left := DebitQuota(l, before, es, j);
    forall m: Meter ensures left.Get(m) == before.Minus(sum).Get(m) {
      assert sum.Get(m) == QuotaOn(l, es, j, m);
    }
    EqualByMeter(left, before.Minus(sum));
    HeadroomNonNegative(left, sum);
    hide InRange, QuotaHeadroom;
    NoOverflow(before, left, sum, 0);
    forall k: nat | k <= QuotaHeadroom(left, sum) ensures InRange(sum.Times(k)) {
      NoOverflow(before, left, sum, k);
    }
  }

  lemma HeadroomNonNegative(left: Quota, sum: Quota)
    requires left.NonNegative() && sum.NonNegative()
    ensures QuotaHeadroom(left, sum) >= 0
  {
    HeadroomExact(left, sum, 0);
    forall m: Meter ensures 0 * sum.Get(m) <= left.Get(m) {
      MeterZero(left, m);
    }
  }

  /** The capacity that the headrooms leave of a bound, counting the pass already made. */
  ghost predicate LargestCount(qs: seq<Quota>, sums: map<nat, Quota>, bound: int, capacity: int)
    requires forall j :: j in sums ==> j < |qs|
  {
    && 1 <= capacity <= bound
    && (forall j :: j in sums ==> capacity - 1 <= QuotaHeadroom(qs[j], sums[j]))
    && (capacity < bound ==> exists j :: j in sums && capacity == 1 + QuotaHeadroom(qs[j], sums[j]))
  }

  /** That many equal plans, and the partial charges of one more pass when the bound is not met. */
  ghost function ClosedRun(l: Topology, p: Pool, mount: seq<VolumeBinding>, bound: nat, capacity: nat): Run {
    var es := MountEntries(mount);
    if capacity == bound then Run(Copies(capacity, es), [], false)
    else Run(Copies(capacity, es), CheckedPass(l, Debit(l, p, Flat(Copies(capacity, es))), es).entries, true)
  }

  /** With that capacity, charged in one go and followed by one failed pass when it is below the bound, the run is done. */
  lemma ClosedForm(l: Topology, p: Pool, mount: seq<VolumeBinding>, sums: map<nat, Quota>, bound: nat, capacity: nat)
    requires Good(l, p) && ValidAll(mount) && 1 <= bound <= MAX_INT
    requires CheckedPass(l, p, MountEntries(mount)).ok && Summed(l, MountEntries(mount), sums)
    requires LargestCount(Debit(l, p, MountEntries(mount)).quotas, sums, bound, capacity)
    ensures var es := MountEntries(mount); var d := Debit(l, p, Flat(Copies(capacity, es)));
      && Good(l, d) && d == Debit(l, Debit(l, p, es), Flat(Copies(capacity - 1, es)))
      && Repeat(l, p, PassOf(l, [], mount), bound) == ClosedRun(l, p, mount, bound, capacity)
  {
    var es := MountEntries(mount);
    MountEntriesValid(mount);
    CheckedPassGood(l, p, es);
    CheckedIffSolvent(l, p, es);
    CopiesFromFront(capacity - 1, es);
    DebitConcat(l, p, es, Flat(Copies(capacity - 1, es)));
    CountPays(l, p, es, sums, bound, capacity);
    hide Pays, Summed, LargestCount, CheckedPass, Debit, MountEntries, Copies, Good, NonNegativeCharges, OnDisks, ValidAll;
    MountRun(l, p, mount, capacity);
    if capacity < bound {
      MountRunStops(l, p, mount, capacity, bound);
    }
  }

  /** The whole pays for that many passes, and for no more when the bound is not met. */
  lemma CountPays(l: Topology, p: Pool, es: seq<Entry>, sums: map<nat, Quota>, bound: nat, capacity: nat)
    requires |p.quotas| == |l.slots| && NonNegativeQuotas(Debit(l, p, es).quotas) && bound <= MAX_INT && Summed(l, es, sums)
    requires LargestCount(Debit(l, p, es).quotas, sums, bound, capacity)
    ensures Pays(l, p.quotas, es, capacity) && (capacity < bound ==> !Pays(l, p.quotas, es, capacity + 1))
  {
    var qs := Debit(l, p, es).quotas;
    assert |qs| == |l.slots|;
    PaysIffHeadroom(l, qs, es, sums, capacity - 1);
    PaysAfterOne(l, p, es, capacity - 1);
    if capacity < bound {
      PaysIffHeadroom(l, qs, es, sums, capacity);
      PaysAfterOne(l, p, es, capacity);
    }
  }
}
