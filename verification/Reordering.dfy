/** Hosts whose used volumes differ only in their order make the same plans. */
module Reordering {
  import opened Quantity
  import opened Options
  import opened Bindings
  import opened Disks
  import opened Volumes
  import opened Charges
  import opened Repetition
  import opened Passes

  /** Same used volumes in any order, same quotas. */
  ghost predicate Alike(p: Pool, q: Pool) {
    SameVolumes(p.used, q.used) && p.quotas == q.quotas
  }

  lemma AlikeDebit(l: Topology, p: Pool, q: Pool, es: seq<Entry>)
    requires Alike(p, q)
    ensures Alike(Debit(l, p, es), Debit(l, q, es))
  {
    DebitMembers(p.used, q.used, es);
    DebitMembers(q.used, p.used, es);
  }

  lemma DebitMembers(vs: seq<Volume>, ws: seq<Volume>, es: seq<Entry>)
    requires forall v :: v in vs ==> v in ws
    ensures forall v :: v in DebitVolumes(vs, es) ==> v in DebitVolumes(ws, es)
  {
    var d, e := DebitVolumes(vs, es), DebitVolumes(ws, es);
    forall v | v in d ensures v in e {
      var i :| 0 <= i < |d| && d[i] == v;
      assert vs[i] in ws;
      var k :| 0 <= k < |ws| && ws[k] == vs[i];
      assert e[k] == v;
    }
  }

  lemma {:induction false} NormalPassAlike(l: Topology, p: Pool, q: Pool, reqs: seq<VolumeBinding>)
    requires Alike(p, q)
    ensures NormalPass(l, p, reqs) == NormalPass(l, q, reqs)
  {
    if reqs != [] {
      NormalPassAlike(l, p, q, reqs[..|reqs| - 1]);
      var r := NormalPass(l, p, reqs[..|reqs| - 1]);
      if r.ok {
        AlikeDebit(l, p, q, r.entries);
        PickSame(l, Debit(l, p, r.entries).quotas, Debit(l, p, r.entries).used, Debit(l, q, r.entries).used, reqs[|reqs| - 1]);
      }
    }
  }

  lemma {:induction false} CheckedPassAlike(l: Topology, p: Pool, q: Pool, es: seq<Entry>)
    requires p.quotas == q.quotas && forall e :: e in es ==> e.size == 0
    ensures CheckedPass(l, p, es) == CheckedPass(l, q, es)
  {
    if es != [] {
      assert es == es[..|es| - 1] + [es[|es| - 1]];
      CheckedPassAlike(l, p, q, es[..|es| - 1]);
    }
  }

  lemma OnePassAlike(l: Topology, p: Pool, q: Pool, normal: seq<VolumeBinding>, mount: seq<VolumeBinding>)
    requires Alike(p, q)
    ensures OnePass(l, p, normal, mount) == OnePass(l, q, normal, mount)
  {
    NormalPassAlike(l, p, q, normal);
    var n := NormalPass(l, p, normal);
    AlikeDebit(l, p, q, n.entries);
    CheckedPassAlike(l, Debit(l, p, n.entries), Debit(l, q, n.entries), MountEntries(mount));
  }

  /** A pass that has failed charges nothing for the requests after. */
  lemma {:induction false} NormalPassStops(l: Topology, p: Pool, reqs: seq<VolumeBinding>, k: nat)
    requires k <= |reqs| && !NormalPass(l, p, reqs[..k]).ok
    ensures NormalPass(l, p, reqs) == NormalPass(l, p, reqs[..k])
  {
    if k < |reqs| {
      assert reqs[..|reqs| - 1][..k] == reqs[..k];
      NormalPassStops(l, p, reqs[..|reqs| - 1], k);
    } else {
      assert reqs[..k] == reqs;
    }
  }

  lemma {:induction false} CheckedPassStops(l: Topology, p: Pool, es: seq<Entry>, k: nat)
    requires k <= |es| && !CheckedPass(l, p, es[..k]).ok
    ensures CheckedPass(l, p, es) == CheckedPass(l, p, es[..k])
  {
    if k < |es| {
      assert es[..|es| - 1][..k] == es[..k];
      CheckedPassStops(l, p, es[..|es| - 1], k);
    } else {
      assert es[..k] == es;
    }
  }

  // ---- The effect of one charge

  function LessQuota(qs: seq<Quota>, j: Option<nat>, q: Quota): (r: seq<Quota>)
    requires j.Some? ==> j.value < |qs|
    ensures |r| == |qs|
  {
    match j
    case None => qs
    case Some(j) => qs[j := qs[j].Minus(q)]
  }

  /** One entry draws its quota from the one disk that covers its device. */
  lemma QuotasAfterOne(l: Topology, qs: seq<Quota>, e: Entry)
    requires |qs| == |l.slots|
    ensures DebitQuotas(l, qs, [e]) == LessQuota(qs, l.Disk(e.device), e.binding.quota)
  {
    var d, r := DebitQuotas(l, qs, [e]), LessQuota(qs, l.Disk(e.device), e.binding.quota);
    forall j | 0 <= j < |qs| ensures d[j] == r[j] {
      forall m: Meter ensures d[j].Get(m) == r[j].Get(m) {
        QuotaAppend(l, [], e, j, m);
        assert [] + [e] == [e];
      }
      EqualByMeter(d[j], r[j]);
    }
  }

  lemma OneEntryBytes(e: Entry, device: string)
    ensures BytesOn([e], device) == if device == e.device then e.size else 0
  {
    BytesAppend([], e, device);
    assert [] + [e] == [e];
  }

  /** One entry takes its size from the one volume of its device. */
  lemma VolumesAfterOne(vs: seq<Volume>, e: Entry, k: nat)
    requires Distinct(vs) && k < |vs| && vs[k].device == e.device
    ensures DebitVolumes(vs, [e]) == vs[k := Volume(e.device, vs[k].size - e.size)]
  {
    var d, r := DebitVolumes(vs, [e]), vs[k := Volume(e.device, vs[k].size - e.size)];
    forall i | 0 <= i < |vs| ensures d[i] == r[i] {
      OneEntryBytes(e, vs[i].device);
      if vs[i].device == e.device {
        DistinctAt(vs, i, k);
      }
    }
  }

  /** Entries on other devices, or without bytes, leave volumes alone. */
  lemma VolumesUntouched(vs: seq<Volume>, es: seq<Entry>)
    requires forall v :: v in vs ==> BytesOn(es, v.device) == 0
    ensures DebitVolumes(vs, es) == vs
  {
    forall i | 0 <= i < |vs| ensures DebitVolumes(vs, es)[i] == vs[i] {
      assert vs[i] in vs;
    }
  }

  /** The heap after one volume has shrunk holds the debited volumes. */
  lemma Replaced(vs: seq<Volume>, ws: seq<Volume>, x: Volume, e: Entry)
    requires Distinct(vs) && x in vs && x.device == e.device
    requires multiset(ws) == multiset(vs) - multiset{x} + multiset{Volume(x.device, x.size - e.size)}
    ensures SameVolumes(ws, DebitVolumes(vs, [e])) && Distinct(ws)
  {
    var k :| 0 <= k < |vs| && vs[k] == x;
    VolumesAfterOne(vs, e, k);
    var y := Volume(x.device, x.size - e.size);
    UpdateMultiset(vs, k, y);
    UpdateDistinct(vs, k, y);
    PermutationDistinct(vs[k := y], ws);
  }

  lemma UpdateMultiset<T>(s: seq<T>, k: nat, y: T)
    requires k < |s|
    ensures multiset(s[k := y]) == multiset(s) - multiset{s[k]} + multiset{y}
  {
  }

  lemma UpdateDistinct(vs: seq<Volume>, k: nat, y: Volume)
    requires Distinct(vs) && k < |vs| && y.device == vs[k].device
    ensures Distinct(vs[k := y])
  {
    var ws := vs[k := y];
    forall i, j | 0 <= i < j < |ws| ensures Apart(ws[i], ws[j]) {
      assert Apart(vs[i], vs[j]);
    }
  }

  /** Reordering used volumes keeps a host good. */
  lemma GoodReordered(l: Topology, p: Pool, q: Pool)
    requires Good(l, p) && Alike(q, p) && q.unused == p.unused && Distinct(q.used)
    ensures Good(l, q)
  {
    forall v, w | v in q.used && w in q.unused ensures Apart(v, w) {
      assert v in p.used;
    }
  }

  lemma PermutedGood(l: Topology, p: Pool, q: Pool)
    requires Good(l, p) && multiset(q.used) == multiset(p.used) && q.unused == p.unused && q.quotas == p.quotas
    ensures Good(l, q) && Alike(q, p)
  {
    PermutationDistinct(p.used, q.used);
    GoodReordered(l, p, q);
  }

  lemma PickedOnDisk(l: Topology, qs: seq<Quota>, vs: seq<Volume>, b: VolumeBinding)
    ensures match Pick(l, qs, vs, b)
      case None => true
      case Some(v) => b.RequireIOPS() ==> l.Disk(v.device).Some?
  {
  }

  lemma NothingPicked(l: Topology, qs: seq<Quota>, vs: seq<Volume>, b: VolumeBinding)
    requires forall v :: v in vs ==> !Fits(l, qs, v, b)
    ensures Pick(l, qs, vs, b) == None
  {
  }

  /** A volume that fits a binding with quota lies on a disk. */
  lemma FitsOnDisk(l: Topology, qs: seq<Quota>, vs: seq<Volume>, v: Volume, b: VolumeBinding)
    requires BestFit(l, qs, vs, b, v)
    ensures v in vs && Fits(l, qs, v, b)
    ensures b.RequireIOPS() ==> l.Disk(v.device).Some? && l.Disk(v.device).value < |qs|
  {
  }

  /** An entry on a used device takes nothing from unused volumes. */
  lemma UnusedUntouched(p: Pool, e: Entry)
    requires Disjoint(p.used, p.unused) && Listed(p.used, e.device)
    ensures DebitVolumes(p.unused, [e]) == p.unused
  {
    var u :| u in p.used && u.device == e.device;
    forall v | v in p.unused ensures BytesOn([e], v.device) == 0 {
      assert Apart(u, v);
      BytesAppend([], e, v.device);
      assert [] + [e] == [e];
    }
    VolumesUntouched(p.unused, [e]);
  }

  /** The host after a request was placed on volume x, its used volumes in any order. */
  lemma PlacedGood(l: Topology, p: Pool, q: Pool, x: Volume, b: VolumeBinding)
    requires Good(l, p) && x in p.used && Fits(l, p.quotas, x, b) && ValidBinding(b)
    requires multiset(q.used) == multiset(p.used) - multiset{x} + multiset{Volume(x.device, x.size - b.size)}
    requires q.unused == p.unused && q.quotas == LessQuota(p.quotas, l.Disk(x.device), b.quota)
    ensures Good(l, q) && Alike(q, Debit(l, p, [Entry(b, x.device, b.size)]))
  {
    var e := Entry(b, x.device, b.size);
    PlacedCharge(l, p, x, b);
    Replaced(p.used, q.used, x, e);
    QuotasAfterOne(l, p.quotas, e);
    UnusedUntouched(p, e);
    hide Good, Distinct, Disjoint, Qualified, Listed, LessQuota, ValidBinding;
    GoodReordered(l, Debit(l, p, [e]), q);
  }

  lemma PlacedCharge(l: Topology, p: Pool, x: Volume, b: VolumeBinding)
    requires Good(l, p) && x in p.used && Fits(l, p.quotas, x, b) && ValidBinding(b)
    ensures Good(l, Debit(l, p, [Entry(b, x.device, b.size)]))
  {
    OnlyVolume(p, x);
    hide Qualified, Debit;
    ChargeGood(l, p, Entry(b, x.device, b.size));
  }

  /** Charging a binding that asks for no quota draws none. */
  lemma NoQuotaDrawn(qs: seq<Quota>, j: Option<nat>, q: Quota)
    requires (j.Some? ==> j.value < |qs|) && q.NonNegative() && !q.Positive()
    ensures LessQuota(qs, j, q) == qs
  {
    if j.Some? {
      forall m: Meter ensures qs[j.value].Minus(q).Get(m) == qs[j.value].Get(m) {
        MeterZero(q, m);
      }
      EqualByMeter(qs[j.value].Minus(q), qs[j.value]);
    }
  }

  // ---- One more request, one more entry

  lemma NormalPassNext(l: Topology, p: Pool, reqs: seq<VolumeBinding>, i: nat, es: seq<Entry>, q: Pool)
    requires i < |reqs| && NormalPass(l, p, reqs[..i]) == Pass(true, es) && Alike(q, Debit(l, p, es))
    ensures match Pick(l, q.quotas, q.used, reqs[i])
      case None => NormalPass(l, p, reqs) == Pass(false, es)
      case Some(v) => NormalPass(l, p, reqs[..i + 1]) == Pass(true, es + [Entry(reqs[i], v.device, reqs[i].size)])
  {
    var d := Debit(l, p, es);
    PickSame(l, d.quotas, q.used, d.used, reqs[i]);
    assert reqs[..i + 1][..i] == reqs[..i];
    if Pick(l, q.quotas, q.used, reqs[i]).None? {
      NormalPassStops(l, p, reqs, i + 1);
    }
  }

  lemma AlikeNext(l: Topology, p: Pool, es: seq<Entry>, fs: seq<Entry>, q: Pool, r: Pool)
    requires Alike(q, Debit(l, p, es)) && Alike(r, Debit(l, q, fs))
    ensures Alike(r, Debit(l, p, es + fs))
  {
    AlikeDebit(l, q, Debit(l, p, es), fs);
    DebitConcat(l, p, es, fs);
  }

  lemma DiskPlanNext(l: Topology, es: seq<Entry>, e: Entry)
    ensures DiskPlan(l, es + [e]) == Accumulate(l, DiskPlan(l, es), e)
  {
    assert (es + [e])[..|es|] == es;
  }

  lemma MountEntriesNext(reqs: seq<VolumeBinding>, i: nat)
    requires i < |reqs|
    ensures MountEntries(reqs[..i + 1]) == MountEntries(reqs[..i]) + [Entry(reqs[i], reqs[i].source, 0)]
    ensures MountEntries(reqs)[..i] == MountEntries(reqs[..i])
    ensures MountEntries(reqs)[..i + 1] == MountEntries(reqs[..i + 1])
  {
  }

  lemma CheckedPassNext(l: Topology, p: Pool, es: seq<Entry>, e: Entry)
    requires CheckedPass(l, p, es).ok
    ensures CheckedPass(l, p, es + [e]) == if Bears(l, Debit(l, p, es), e) then Pass(true, es + [e]) else Pass(false, es)
  {
    assert (es + [e])[..|es|] == es;
  }

  /** A charge without bytes draws quota only. */
  lemma QuotaCharge(l: Topology, p: Pool, e: Entry)
    requires e.size == 0 && |p.quotas| == |l.slots|
    ensures Debit(l, p, [e]) == Pool(p.used, p.unused, LessQuota(p.quotas, l.Disk(e.device), e.binding.quota))
  {
    QuotasAfterOne(l, p.quotas, e);
    forall device ensures BytesOn([e], device) == 0 {
      BytesAppend([], e, device);
      assert [] + [e] == [e];
    }
    VolumesUntouched(p.used, [e]);
    VolumesUntouched(p.unused, [e]);
  }

  lemma BearsQuota(l: Topology, p: Pool, e: Entry)
    requires e.size == 0
    ensures Bears(l, p, e) <==> (!e.binding.RequireIOPS() || Qualified(l, p.quotas, e.device, e.binding))
  {
  }

  lemma QualifiedOnDisk(l: Topology, qs: seq<Quota>, path: string, b: VolumeBinding)
    ensures Qualified(l, qs, path, b) && b.RequireIOPS() ==> l.Disk(path).Some? && l.Disk(path).value < |qs|
  {
  }

  /** Mount request i is served or fails on the host that the ones before left. */
  lemma MountPassNext(l: Topology, p: Pool, reqs: seq<VolumeBinding>, i: nat)
    requires i < |reqs| && Good(l, p) && ValidAll(reqs) && CheckedPass(l, p, MountEntries(reqs[..i])).ok
    ensures var d := Debit(l, p, MountEntries(reqs[..i])); var e := Entry(reqs[i], reqs[i].source, 0);
      && (if Bears(l, d, e) then CheckedPass(l, p, MountEntries(reqs[..i + 1])).ok
          else CheckedPass(l, p, MountEntries(reqs)) == Pass(false, MountEntries(reqs[..i])))
      && Debit(l, p, MountEntries(reqs[..i + 1])) == Pool(d.used, d.unused, LessQuota(d.quotas, l.Disk(e.device), e.binding.quota))
      && (Bears(l, d, e) ==> Good(l, Debit(l, p, MountEntries(reqs[..i + 1]))))
      && DiskPlan(l, MountEntries(reqs[..i + 1])) == Accumulate(l, DiskPlan(l, MountEntries(reqs[..i])), e)
  {
    var es := MountEntries(reqs[..i]);
    var d, e := Debit(l, p, es), Entry(reqs[i], reqs[i].source, 0);
    MountEntriesNext(reqs, i);
    MountEntriesValid(reqs[..i + 1]);
    CheckedPassNext(l, p, es, e);
    CheckedPassGood(l, p, es + [e]);
    DebitConcat(l, p, es, [e]);
    DiskPlanNext(l, es, e);
    QuotaCharge(l, d, e);
    if !Bears(l, d, e) {
      CheckedPassStops(l, p, MountEntries(reqs), i + 1);
    }
  }
}
