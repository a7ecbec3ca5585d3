/** Single releases and charges of a reallocation, and charging matched requests in any order. */
module AffinityCharges {
  import opened Quantity
  import opened Options
  import opened Bindings
  import opened Disks
  import opened Volumes
  import opened Sums
  import opened Charges
  import opened Passes
  import opened Reordering
  import opened MonoCharges
  import opened PlanContents
  import opened VolumePlans
  import opened Affinity
  import opened Reallocation

  // ---- One release

  /** Giving an entry back is charging its opposite. */
  function Opposite(e: Entry): Entry {
    Entry(e.binding.(quota := Negative(e.binding.quota)), e.device, -e.size)
  }

  lemma CreditIsDebit(l: Topology, p: Pool, e: Entry)
    ensures Credit(l, p, [e]) == Debit(l, p, [Opposite(e)])
  {
    var o := Opposite(e);
    forall d ensures BytesOn([o], d) == -BytesOn([e], d) {
      BytesAppend([], o, d);
      BytesAppend([], e, d);
      assert [] + [o] == [o] && [] + [e] == [e];
    }
    var r, s := Credit(l, p, [e]), Debit(l, p, [o]);
    assert r.used == s.used && r.unused == s.unused;
    forall j | 0 <= j < |p.quotas| ensures r.quotas[j] == s.quotas[j] {
      forall m: Meter ensures r.quotas[j].Get(m) == s.quotas[j].Get(m) {
        QuotaAppend(l, [], o, j, m);
        QuotaAppend(l, [], e, j, m);
        assert [] + [o] == [o] && [] + [e] == [e];
      }
      EqualByMeter(r.quotas[j], s.quotas[j]);
    }
  }

  function MoreQuota(qs: seq<Quota>, j: Option<nat>, q: Quota): (r: seq<Quota>)
    requires j.Some? ==> j.value < |qs|
    ensures |r| == |qs|
  {
    match j
    case None => qs
    case Some(j) => qs[j := qs[j].Plus(q)]
  }

  lemma MoreIsLess(qs: seq<Quota>, j: Option<nat>, q: Quota)
    requires j.Some? ==> j.value < |qs|
    ensures MoreQuota(qs, j, q) == LessQuota(qs, j, Negative(q))
  {
    if j.Some? {
      assert qs[j.value].Plus(q) == qs[j.value].Minus(Negative(q));
    }
  }

  lemma NothingGiven(qs: seq<Quota>, j: Option<nat>, q: Quota)
    requires (j.Some? ==> j.value < |qs|) && q.NonNegative() && !q.Positive()
    ensures MoreQuota(qs, j, q) == qs
  {
    if j.Some? {
      assert qs[j.value].Plus(q) == qs[j.value];
    }
  }

  /** Devices are listed once and every disk has a quota. */
  ghost predicate Shaped(l: Topology, p: Pool) {
    Distinct(p.used) && Distinct(p.unused) && Disjoint(p.used, p.unused) && |p.quotas| == |l.slots|
  }

  /** q is p with volume k of the used, or of the unused ones, set to v. */
  ghost predicate Resized(p: Pool, inUsed: bool, k: nat, v: Volume, q: Pool) {
    if inUsed then k < |p.used| && p.used[k].device == v.device && q.used == p.used[k := v] && q.unused == p.unused
    else k < |p.unused| && p.unused[k].device == v.device && q.unused == p.unused[k := v] && q.used == p.used
  }

  function SizeIn(p: Pool, inUsed: bool, k: nat): int
    requires k < if inUsed then |p.used| else |p.unused|
  {
    if inUsed then p.used[k].size else p.unused[k].size
  }

  /** The host after one origin entry on volume k was given back. */
  lemma GivenBack(l: Topology, p: Pool, e: Entry, inUsed: bool, k: nat, q: Pool)
    requires Shaped(l, p) && k < if inUsed then |p.used| else |p.unused|
    requires Resized(p, inUsed, k, Volume(e.device, SizeIn(p, inUsed, k) + e.size), q)
    requires q.quotas == MoreQuota(p.quotas, l.Disk(e.device), e.binding.quota)
    ensures q == Credit(l, p, [e]) && Shaped(l, q)
  {
    var o := Opposite(e);
    CreditIsDebit(l, p, e);
    QuotasAfterOne(l, p.quotas, o);
    MoreIsLess(p.quotas, l.Disk(e.device), e.binding.quota);
    OneVolumeCharged(l, p, o, inUsed, k);
    CreditShape(p, [e]);
  }

  lemma OneVolumeCharged(l: Topology, p: Pool, o: Entry, inUsed: bool, k: nat)
    requires Shaped(l, p) && k < if inUsed then |p.used| else |p.unused|
    requires (if inUsed then p.used[k].device else p.unused[k].device) == o.device
    ensures Resized(p, inUsed, k, Volume(o.device, SizeIn(p, inUsed, k) - o.size), Debit(l, p, [o]))
  {
    if inUsed {
      VolumesAfterOne(p.used, o, k);
      OffDevice(p.used, p.unused, o, k);
    } else {
      VolumesAfterOne(p.unused, o, k);
      forall v, w | v in p.unused && w in p.used ensures Apart(v, w) {
        assert Apart(w, v);
      }
      OffDevice(p.unused, p.used, o, k);
    }
  }

  lemma OffDevice(vs: seq<Volume>, ws: seq<Volume>, o: Entry, k: nat)
    requires k < |vs| && vs[k].device == o.device && Disjoint(vs, ws)
    ensures DebitVolumes(ws, [o]) == ws
  {
    forall w | w in ws ensures BytesOn([o], w.device) == 0 {
      assert Apart(vs[k], w);
      BytesAppend([], o, w.device);
      assert [] + [o] == [o];
    }
    VolumesUntouched(ws, [o]);
  }

  /** The host after one mount request's quota was given back. */
  lemma QuotaGivenBack(l: Topology, p: Pool, e: Entry)
    requires e.size == 0 && |p.quotas| == |l.slots|
    ensures Credit(l, p, [e]) == Pool(p.used, p.unused, MoreQuota(p.quotas, l.Disk(e.device), e.binding.quota))
  {
    CreditIsDebit(l, p, e);
    QuotaCharge(l, p, Opposite(e));
    MoreIsLess(p.quotas, l.Disk(e.device), e.binding.quota);
  }

  // ---- One charge

  /** The host bears an entry exactly when its one volume has the bytes and its disk the quota. */
  lemma BearsAt(l: Topology, p: Pool, e: Entry, v: Volume)
    requires Good(l, p) && (v in p.used || v in p.unused) && v.device == e.device && e.size >= 0
    ensures Bears(l, p, e) <==> e.size <= v.size && (!e.binding.RequireIOPS() || Qualified(l, p.quotas, e.device, e.binding))
  {
    forall w | (w in p.used || w in p.unused) && w.device == e.device ensures w == v {
      SameVolume(p, v, w);
    }
  }

  /** The host after one entry was charged to volume k. */
  lemma ChargedTo(l: Topology, p: Pool, e: Entry, inUsed: bool, k: nat, q: Pool)
    requires Good(l, p) && Bears(l, p, e) && e.size >= 0 && e.binding.quota.NonNegative()
    requires k < if inUsed then |p.used| else |p.unused|
    requires Resized(p, inUsed, k, Volume(e.device, SizeIn(p, inUsed, k) - e.size), q)
    requires q.quotas == LessQuota(p.quotas, l.Disk(e.device), e.binding.quota)
    ensures q == Debit(l, p, [e]) && Good(l, q)
  {
    QuotasAfterOne(l, p.quotas, e);
    OneVolumeCharged(l, p, e, inUsed, k);
    BearsAll(l, p, e);
    ChargeGood(l, p, e);
  }

  lemma BearsAll(l: Topology, p: Pool, e: Entry)
    requires Good(l, p) && Bears(l, p, e) && e.size >= 0
    ensures forall v :: (v in p.used || v in p.unused) && v.device == e.device ==> e.size <= v.size
    ensures !e.binding.RequireIOPS() || Qualified(l, p.quotas, e.device, e.binding)
  {
  }

  // ---- Paying in any order

  lemma PayableIff(l: Topology, p: Pool, es: seq<Entry>)
    requires Good(l, p) && NonNegativeCharges(es)
    ensures CheckedPass(l, p, es).ok <==> Payable(l, p, es)
  {
    CheckedIffSolvent(l, p, es);
  }

  lemma PayableConcat(l: Topology, p: Pool, a: seq<Entry>, b: seq<Entry>)
    requires NonNegativeCharges(b)
    ensures Payable(l, p, a + b) <==> Payable(l, p, a) && Payable(l, Debit(l, p, a), b)
  {
    DebitConcat(l, p, a, b);
    if Solvent(Debit(l, p, a + b)) {
      DebitMonotone(l, p, a, b);
    }
  }

  lemma PayablePermutation(l: Topology, p: Pool, a: seq<Entry>, b: seq<Entry>)
    requires multiset(a) == multiset(b)
    ensures Payable(l, p, a) <==> Payable(l, p, b)
  {
    DebitPermutation(l, p, a, b);
    forall e ensures e in a <==> e in b {
      assert e in a <==> e in multiset(a);
      assert e in b <==> e in multiset(b);
    }
  }

  lemma HoldsPermutation(l: Topology, disks: seq<Disk>, held: seq<Entry>, a: seq<Entry>, b: seq<Entry>)
    requires HoldsFor(l, disks, held + a) && multiset(a) == multiset(b)
    ensures HoldsFor(l, disks, held + b)
  {
    forall j, m | 0 <= j < |l.slots| ensures TotalQuota(disks, l.slots[j].device, m) == QuotaOn(l, held + b, j, m) {
      QuotaConcat(l, held, a, j, m);
      QuotaConcat(l, held, b, j, m);
      SumPermutation(MeterAt(l, j, m), a, b);
    }
  }

  lemma AccumulateOff(l: Topology, disks: seq<Disk>, e: Entry, device: string, m: Meter)
    requires NoSlot(l, device) && TotalQuota(disks, device, m) == 0
    ensures TotalQuota(Accumulate(l, disks, e), device, m) == 0
  {
    match l.Disk(e.device)
    case None =>
    case Some(j) =>
      var x := [Disk(l.slots[j].device, l.slots[j].mounts, e.binding.quota)];
      AddedTotal(disks, x, device, m);
      TotalQuotaAbsent(x, device, m);
  }

  lemma HoldsOne(l: Topology, disks: seq<Disk>, es: seq<Entry>, e: Entry)
    requires HoldsFor(l, disks, es) && UniqueSlots(l.slots) && e.binding.quota.NonNegative()
    ensures HoldsFor(l, Accumulate(l, disks, e), es + [e])
  {
    forall j, m | 0 <= j < |l.slots| ensures TotalQuota(Accumulate(l, disks, e), l.slots[j].device, m) == QuotaOn(l, es + [e], j, m) {
      AccumulateTotal(l, disks, e, j, m);
      QuotaAppend(l, es, e, j, m);
    }
    if |l.slots| > 0 {
      AccumulateTotal(l, disks, e, |l.slots| - 1, ReadIOPS);
    }
    forall device, m | NoSlot(l, device) ensures TotalQuota(Accumulate(l, disks, e), device, m) == 0 {
      AccumulateOff(l, disks, e, device, m);
    }
  }

  /** Of the entries to charge, done were charged in this order and rest are left. */
  ghost predicate InProgress(l: Topology, p: Pool, all: seq<Entry>, done: seq<Entry>, rest: seq<Entry>, q: Pool) {
    && multiset(done) + multiset(rest) == multiset(all)
    && Payable(l, p, done) && q == Debit(l, p, done) && Good(l, q)
  }

  /** Charging one of the rest: it is borne, and done, or the whole cannot be paid for. */
  lemma NextCharge(l: Topology, p: Pool, all: seq<Entry>, done: seq<Entry>, rest: seq<Entry>, q: Pool, k: nat)
    requires Good(l, p) && NonNegativeCharges(all) && InProgress(l, p, all, done, rest, q) && k < |rest|
    ensures rest[k] in all
    ensures if Bears(l, q, rest[k])
      then InProgress(l, p, all, done + [rest[k]], rest[..k] + rest[k + 1..], Debit(l, q, [rest[k]]))
      else !Payable(l, p, all)
  {
    var e := rest[k];
    var more := rest[..k] + rest[k + 1..];
    assert rest == rest[..k] + [e] + rest[k + 1..];
    assert multiset(done + [e]) + multiset(more) == multiset(all);
    forall x | x in done || x in rest ensures x in all {
      assert x in multiset(all);
    }
    forall x | x in more ensures x in rest {
    }
    OneMore(l, p, done, e, q);
    if !Bears(l, q, e) {
      PayableConcat(l, p, done + [e], more);
      PayablePermutation(l, p, done + [e] + more, all);
    }
  }

  lemma OneMore(l: Topology, p: Pool, done: seq<Entry>, e: Entry, q: Pool)
    requires Good(l, p) && NonNegativeCharges(done + [e]) && Payable(l, p, done) && q == Debit(l, p, done) && Good(l, q)
    ensures Payable(l, p, done + [e]) <==> Bears(l, q, e)
    ensures Bears(l, q, e) ==> Debit(l, p, done + [e]) == Debit(l, q, [e]) && Good(l, Debit(l, q, [e]))
  {
    assert e in done + [e];
    forall x | x in done ensures x in done + [e] {
    }
    DebitConcat(l, p, done, [e]);
    PayableIff(l, p, done);
    CheckedPassNext(l, p, done, e);
    PayableIff(l, p, done + [e]);
    if Bears(l, q, e) {
      CheckedPassGood(l, p, done + [e]);
    }
  }

  // ---- Destinations

  function BindingsOf(es: VolumePlan): (r: seq<VolumeBinding>)
    ensures |r| == |es| && forall k :: 0 <= k < |es| ==> r[k] == es[k].binding
  {
    seq(|es|, k requires 0 <= k < |es| => es[k].binding)
  }

  lemma BindingsConcat(a: VolumePlan, b: VolumePlan)
    ensures BindingsOf(a + b) == BindingsOf(a) + BindingsOf(b)
  {
  }

  lemma BindingsAppend(es: VolumePlan, e: Entry)
    ensures multiset(BindingsOf(es + [e])) == multiset(BindingsOf(es)) + multiset{e.binding}
  {
    assert BindingsOf(es + [e]) == BindingsOf(es) + [e.binding];
  }

  function Is(b: VolumeBinding): Entry -> int {
    (e: Entry) => if e.binding == b then 1 else 0
  }

  lemma {:induction false} BindingCount(es: VolumePlan, b: VolumeBinding)
    ensures multiset(BindingsOf(es))[b] == SumBy(Is(b), es)
  {
    if es != [] {
      var n := |es| - 1;
      assert es == es[..n] + [es[n]];
      BindingCount(es[..n], b);
      BindingsAppend(es[..n], es[n]);
    }
  }

  lemma BindingsPermutation(a: VolumePlan, b: VolumePlan)
    requires multiset(a) == multiset(b)
    ensures multiset(BindingsOf(a)) == multiset(BindingsOf(b))
  {
    forall x: VolumeBinding ensures multiset(BindingsOf(a))[x] == multiset(BindingsOf(b))[x] {
      BindingCount(a, x);
      BindingCount(b, x);
      SumPermutation(Is(x), a, b);
    }
  }

  /** Plans whose bindings are different requests have different destinations. */
  lemma BindingsUnrelated(a: VolumePlan, b: VolumePlan, reqs: seq<VolumeBinding>)
    requires Unlike(reqs) && multiset(BindingsOf(a)) + multiset(BindingsOf(b)) <= multiset(reqs)
    ensures Unrelated(a, b)
  {
    BindingsConcat(a, b);
    SubsetUnlike(reqs, BindingsOf(a + b));
    PlanUnlike(a + b, BindingsOf(a + b));
  }

  lemma {:induction false} KeptPartition(reqs: seq<VolumeBinding>, origin: VolumePlan)
    ensures multiset(BindingsOf(Kept(reqs, origin))) + multiset(Unmatched(reqs, origin)) == multiset(reqs)
  {
    if reqs != [] {
      var n := |reqs| - 1;
      assert reqs == reqs[..n] + [reqs[n]];
      KeptPartition(reqs[..n], origin);
      assert multiset(reqs) == multiset(reqs[..n]) + multiset{reqs[n]};
      if Match(origin, reqs[n]).Some? {
        BindingsAppend(Kept(reqs[..n], origin), Entry(reqs[n], Match(origin, reqs[n]).value.device, reqs[n].size));
        assert Unmatched(reqs, origin) == Unmatched(reqs[..n], origin);
      } else {
        assert Kept(reqs, origin) == Kept(reqs[..n], origin);
        assert multiset(Unmatched(reqs, origin)) == multiset(Unmatched(reqs[..n], origin)) + multiset{reqs[n]};
      }
    }
  }
}
