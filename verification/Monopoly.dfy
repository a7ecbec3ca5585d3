/** Monopoly groups: all monopoly requests of one plan share one whole unused volume. */
module Monopoly {
  import opened Quantity
  import opened Options
  import opened Bindings
  import opened Disks
  import opened Volumes
  import opened Sums
  import opened Charges
  import opened Repetition
  import opened Passes

  /** The rounded share of a volume for one request: request size, total of the group, volume size. */
  type Share = (int, int, int) -> int

  function SizeAsked(): VolumeBinding -> int {
    (b: VolumeBinding) => b.size
  }

  function MeterAsked(m: Meter): VolumeBinding -> int {
    (b: VolumeBinding) => b.quota.Get(m)
  }

  function TotalSize(reqs: seq<VolumeBinding>): int {
    SumBy(SizeAsked(), reqs)
  }

  /** The group's sizes and quotas added up. */
  function TotalBinding(reqs: seq<VolumeBinding>): VolumeBinding {
    VolumeBinding("", "", "", TotalSize(reqs),
      Quota(SumBy(MeterAsked(ReadIOPS), reqs), SumBy(MeterAsked(WriteIOPS), reqs),
            SumBy(MeterAsked(ReadBPS), reqs), SumBy(MeterAsked(WriteBPS), reqs)))
  }

  lemma TotalMeter(reqs: seq<VolumeBinding>, m: Meter)
    ensures TotalBinding(reqs).quota.Get(m) == SumBy(MeterAsked(m), reqs)
  {
  }

  lemma TotalValid(reqs: seq<VolumeBinding>)
    requires ValidAll(reqs)
    ensures TotalBinding(reqs).quota.NonNegative() && TotalSize(reqs) >= 0
    ensures TotalBinding(reqs).RequireIOPS() <==> AnyRequireIOPS(reqs)
    ensures reqs != [] && reqs[0].size > 0 ==> TotalSize(reqs) > 0
  {
    SumNonNegative(SizeAsked(), reqs);
    forall m: Meter
      ensures TotalBinding(reqs).quota.Get(m) >= 0
      ensures forall b :: b in reqs ==> b.quota.Get(m) <= TotalBinding(reqs).quota.Get(m)
    {
      forall b | b in reqs ensures MeterAsked(m)(b) >= 0 {
        MeterZero(b.quota, m);
      }
      TotalMeter(reqs, m);
      SumNonNegative(MeterAsked(m), reqs);
      forall b | b in reqs ensures b.quota.Get(m) <= TotalBinding(reqs).quota.Get(m) {
        assert MeterAsked(m)(b) == b.quota.Get(m);
      }
    }
    NonNegativeByMeter(TotalBinding(reqs).quota);
    if b :| b in reqs && b.RequireIOPS() {
      LeqByMeter(b.quota, TotalBinding(reqs).quota);
    }
    if !AnyRequireIOPS(reqs) {
      NoneAsked(reqs);
    }
    if reqs != [] {
      assert SizeAsked()(reqs[0]) == reqs[0].size && reqs[0] in reqs;
    }
  }

  lemma NoneAsked(reqs: seq<VolumeBinding>)
    requires ValidAll(reqs) && !AnyRequireIOPS(reqs)
    ensures forall m: Meter :: TotalBinding(reqs).quota.Get(m) == 0
    ensures !TotalBinding(reqs).RequireIOPS()
  {
    forall m: Meter ensures TotalBinding(reqs).quota.Get(m) == 0 {
      forall b | b in reqs ensures MeterAsked(m)(b) == 0 {
        MeterZero(b.quota, m);
      }
      TotalMeter(reqs, m);
      SumZero(MeterAsked(m), reqs);
    }
    var q := TotalBinding(reqs).quota;
    assert q.Get(ReadIOPS) == 0 && q.Get(WriteIOPS) == 0 && q.Get(ReadBPS) == 0 && q.Get(WriteBPS) == 0;
  }

  function ShareOf(share: Share, total: int, size: int): VolumeBinding -> int {
    (b: VolumeBinding) => share(b.size, total, size)
  }

  /** What rounding leaves over of a volume. */
  function Remainder(share: Share, reqs: seq<VolumeBinding>, size: int): int {
    size - SumBy(ShareOf(share, TotalSize(reqs), size), reqs)
  }

  /** The entries of one group on volume v; the first request takes the remainder. */
  function MonoGroup(share: Share, reqs: seq<VolumeBinding>, v: Volume): (es: seq<Entry>)
    ensures |es| == |reqs|
  {
    seq(|reqs|, i requires 0 <= i < |reqs| =>
      Entry(reqs[i], v.device, share(reqs[i].size, TotalSize(reqs), v.size) + if i == 0 then Remainder(share, reqs, v.size) else 0))
  }

  /** A group takes its volume exactly, whatever the shares round to, and nothing of any other. */
  lemma GroupBytes(share: Share, reqs: seq<VolumeBinding>, v: Volume, device: string)
    requires reqs != []
    ensures BytesOn(MonoGroup(share, reqs, v), device) == if device == v.device then v.size else 0
  {
    var es := MonoGroup(share, reqs, v);
    GroupPrefix(share, reqs, v, |reqs|, device);
    assert es[..|reqs|] == es && reqs[..|reqs|] == reqs;
  }

  /** Every request but the first gets its share of the volume, and the first one all the rest. */
  lemma GroupSplits(share: Share, reqs: seq<VolumeBinding>, v: Volume)
    requires reqs != []
    ensures var es := MonoGroup(share, reqs, v); var total := SumBy(SizeAsked(), reqs);
      && es[0] == Entry(reqs[0], v.device, v.size - SumBy(ShareOf(share, total, v.size), reqs[1..]))
      && forall i :: 0 < i < |reqs| ==> es[i] == Entry(reqs[i], v.device, share(reqs[i].size, total, v.size))
  {
    var f := ShareOf(share, TotalSize(reqs), v.size);
    SumFirst(f, reqs);
    hide SumBy;
    assert f(reqs[0]) == share(reqs[0].size, TotalSize(reqs), v.size);
  }

  lemma {:induction false} GroupPrefix(share: Share, reqs: seq<VolumeBinding>, v: Volume, k: nat, device: string)
    requires 0 < k <= |reqs|
    ensures BytesOn(MonoGroup(share, reqs, v)[..k], device)
         == if device == v.device then SumBy(ShareOf(share, TotalSize(reqs), v.size), reqs[..k]) + Remainder(share, reqs, v.size) else 0
  {
    hide Remainder, TotalSize;
    var es := MonoGroup(share, reqs, v);
    var f := ShareOf(share, TotalSize(reqs), v.size);
    assert es[..k] == es[..k - 1] + [es[k - 1]];
    assert reqs[..k] == reqs[..k - 1] + [reqs[k - 1]];
    BytesAppend(es[..k - 1], es[k - 1], device);
    SumAppend(f, reqs[..k - 1], reqs[k - 1]);
    assert f(reqs[k - 1]) == share(reqs[k - 1].size, TotalSize(reqs), v.size);
    if k > 1 {
      GroupPrefix(share, reqs, v, k - 1, device);
    }
  }

  /** A group draws the total quota of its requests from the disk of its volume. */
  lemma GroupQuota(l: Topology, share: Share, reqs: seq<VolumeBinding>, v: Volume, j: nat, m: Meter)
    ensures QuotaOn(l, MonoGroup(share, reqs, v), j, m)
         == if l.Disk(v.device) == Some(j) then TotalBinding(reqs).quota.Get(m) else 0
  {
    var es := MonoGroup(share, reqs, v);
    GroupQuotaPrefix(l, share, reqs, v, |reqs|, j, m);
    assert es[..|reqs|] == es && reqs[..|reqs|] == reqs;
    TotalMeter(reqs, m);
  }

  lemma {:induction false} GroupQuotaPrefix(l: Topology, share: Share, reqs: seq<VolumeBinding>, v: Volume, k: nat, j: nat, m: Meter)
    requires k <= |reqs|
    ensures QuotaOn(l, MonoGroup(share, reqs, v)[..k], j, m)
         == if l.Disk(v.device) == Some(j) then SumBy(MeterAsked(m), reqs[..k]) else 0
  {
    var es := MonoGroup(share, reqs, v);
    if k > 0 {
      assert es[..k] == es[..k - 1] + [es[k - 1]];
      assert reqs[..k] == reqs[..k - 1] + [reqs[k - 1]];
      GroupQuotaPrefix(l, share, reqs, v, k - 1, j, m);
      QuotaAppend(l, es[..k - 1], es[k - 1], j, m);
      SumAppend(MeterAsked(m), reqs[..k - 1], reqs[k - 1]);
    }
  }

  /** The groups on a list of volumes. */
  function Groups(share: Share, reqs: seq<VolumeBinding>, vs: seq<Volume>): (gs: seq<seq<Entry>>)
    ensures |gs| == |vs|
  {
    seq(|vs|, i requires 0 <= i < |vs| => MonoGroup(share, reqs, vs[i]))
  }

  lemma GroupsAppend(share: Share, reqs: seq<VolumeBinding>, vs: seq<Volume>, v: Volume)
    ensures Flat(Groups(share, reqs, vs + [v])) == Flat(Groups(share, reqs, vs)) + MonoGroup(share, reqs, v)
  {
    assert Groups(share, reqs, vs + [v]) == Groups(share, reqs, vs) + [MonoGroup(share, reqs, v)];
    FlatAppend(Groups(share, reqs, vs), MonoGroup(share, reqs, v));
  }

  /** Volumes taken among the first n unused ones, at most bound of them, each whole and with the quota its disk has left. */
  function MonoRun(l: Topology, share: Share, unused: seq<Volume>, qs: seq<Quota>, reqs: seq<VolumeBinding>, n: nat,
      bound: nat): (r: seq<Volume>)
    requires n <= |unused|
    ensures |r| <= bound && |r| <= n
  {
    if n == 0 then [] else
      var r := MonoRun(l, share, unused, qs, reqs, n - 1, bound);
      if |r| < bound && Fits(l, DebitQuotas(l, qs, Flat(Groups(share, reqs, r))), unused[n - 1], TotalBinding(reqs))
      then r + [unused[n - 1]]
      else r
  }

  /** A smaller bound takes the first of the same volumes. */
  lemma {:induction false} MonoRunPrefix(l: Topology, share: Share, unused: seq<Volume>, qs: seq<Quota>,
      reqs: seq<VolumeBinding>, n: nat, a: nat, b: nat)
    requires n <= |unused| && a <= b
    ensures var r, s := MonoRun(l, share, unused, qs, reqs, n, a), MonoRun(l, share, unused, qs, reqs, n, b);
      if |s| < a then r == s else r == s[..a]
  {
    if n > 0 {
      MonoRunPrefix(l, share, unused, qs, reqs, n - 1, a, b);
    }
  }

  /** Without monopoly quota the volumes taken do not depend on the quotas. */
  lemma {:induction false} MonoRunIgnoresQuotas(l: Topology, share: Share, unused: seq<Volume>, qs: seq<Quota>,
      qs': seq<Quota>, reqs: seq<VolumeBinding>, n: nat, bound: nat)
    requires n <= |unused| && ValidAll(reqs) && !AnyRequireIOPS(reqs)
    requires |qs| == |qs'| == |l.slots| && NonNegativeQuotas(qs) && NonNegativeQuotas(qs')
    ensures MonoRun(l, share, unused, qs, reqs, n, bound) == MonoRun(l, share, unused, qs', reqs, n, bound)
  {
    if n > 0 {
      MonoRunIgnoresQuotas(l, share, unused, qs, qs', reqs, n - 1, bound);
      FreeFits(l, share, qs, qs', reqs, MonoRun(l, share, unused, qs, reqs, n - 1, bound), unused[n - 1]);
    }
  }

  lemma FreeFits(l: Topology, share: Share, qs: seq<Quota>, qs': seq<Quota>, reqs: seq<VolumeBinding>, vs: seq<Volume>, v: Volume)
    requires ValidAll(reqs) && !AnyRequireIOPS(reqs)
    requires |qs| == |qs'| == |l.slots| && NonNegativeQuotas(qs) && NonNegativeQuotas(qs')
    ensures var es := Flat(Groups(share, reqs, vs));
      Fits(l, DebitQuotas(l, qs, es), v, TotalBinding(reqs)) == Fits(l, DebitQuotas(l, qs', es), v, TotalBinding(reqs))
  {
    FreeQuota(l, share, qs, reqs, vs);
    FreeQuota(l, share, qs', reqs, vs);
    FreeQualified(l, qs, v.device, reqs);
    FreeQualified(l, qs', v.device, reqs);
  }

  lemma {:induction false} FreeQuota(l: Topology, share: Share, qs: seq<Quota>, reqs: seq<VolumeBinding>, vs: seq<Volume>)
    requires ValidAll(reqs) && !AnyRequireIOPS(reqs)
    ensures DebitQuotas(l, qs, Flat(Groups(share, reqs, vs))) == qs
  {
    if vs == [] {
      assert Groups(share, reqs, vs) == [];
      DebitNil(l, Pool([], [], qs));
    } else {
      var front, v := vs[..|vs| - 1], vs[|vs| - 1];
      FreeQuota(l, share, qs, reqs, front);
      assert vs == front + [v];
      GroupsAppend(share, reqs, front, v);
      DebitQuotasConcat(l, qs, Flat(Groups(share, reqs, front)), MonoGroup(share, reqs, v));
      var d := DebitQuotas(l, qs, MonoGroup(share, reqs, v));
      NoneAsked(reqs);
      forall j | 0 <= j < |qs| ensures d[j] == qs[j] {
        forall m: Meter ensures d[j].Get(m) == qs[j].Get(m) {
          GroupQuota(l, share, reqs, v, j, m);
        }
        EqualByMeter(d[j], qs[j]);
      }
    }
  }

  lemma FreeQualified(l: Topology, qs: seq<Quota>, device: string, reqs: seq<VolumeBinding>)
    requires ValidAll(reqs) && !AnyRequireIOPS(reqs) && |qs| == |l.slots| && NonNegativeQuotas(qs)
    ensures Qualified(l, qs, device, TotalBinding(reqs))
  {
    NoneAsked(reqs);
    if l.Disk(device).Some? {
      var q := qs[l.Disk(device).value];
      forall m: Meter ensures TotalBinding(reqs).quota.Get(m) <= q.Get(m) {
        MeterZero(q, m);
      }
      LeqByMeter(TotalBinding(reqs).quota, q);
    }
  }

  /** The volumes taken are unused volumes, in their order, each once. */
  lemma {:induction false} MonoRunTakes(l: Topology, share: Share, unused: seq<Volume>, qs: seq<Quota>,
      reqs: seq<VolumeBinding>, n: nat, bound: nat)
    requires n <= |unused| && Distinct(unused)
    ensures var r := MonoRun(l, share, unused, qs, reqs, n, bound);
      (forall v :: v in r ==> v in unused[..n] && TotalSize(reqs) <= v.size) && Distinct(r)
  {
    if n > 0 {
      MonoRunTakes(l, share, unused, qs, reqs, n - 1, bound);
      assert unused[..n] == unused[..n - 1] + [unused[n - 1]];
      var r := MonoRun(l, share, unused, qs, reqs, n - 1, bound);
      forall i | 0 <= i < |r| ensures Apart(r[i], unused[n - 1]) {
        assert r[i] in unused[..n - 1];
        var k :| 0 <= k < n - 1 && unused[k] == r[i];
        assert Apart(unused[k], unused[n - 1]);
      }
      var r' := MonoRun(l, share, unused, qs, reqs, n, bound);
      forall i, j | 0 <= i < j < |r'| ensures Apart(r'[i], r'[j]) {
        assert j < |r| ==> Apart(r[i], r[j]);
      }
    }
  }

  /** What is taken among more volumes begins with what is taken among fewer. */
  lemma {:induction false} MonoRunGrows(l: Topology, share: Share, unused: seq<Volume>, qs: seq<Quota>,
      reqs: seq<VolumeBinding>, i: nat, n: nat, bound: nat)
    requires i <= n <= |unused|
    ensures var r, s := MonoRun(l, share, unused, qs, reqs, i, bound), MonoRun(l, share, unused, qs, reqs, n, bound);
      r <= s && forall v :: v in s[|r|..] ==> v in unused[i..n]
  {
    if i < n {
      MonoRunGrows(l, share, unused, qs, reqs, i, n - 1, bound);
      assert unused[i..n] == unused[i..n - 1] + [unused[n - 1]];
    }
  }

  /**
   * The volumes are taken greedily in their order: of the first i volumes come the first k taken, and volume i is the next one
   * taken exactly when fewer than bound are and it fits what those k leave.
   */
  lemma MonoRunTurn(l: Topology, share: Share, unused: seq<Volume>, qs: seq<Quota>, reqs: seq<VolumeBinding>, bound: nat,
      i: nat) returns (k: nat)
    requires i < |unused| && Distinct(unused)
    ensures var r := MonoRun(l, share, unused, qs, reqs, |unused|, bound);
      && k <= |r| && (forall v :: v in r[..k] ==> v in unused[..i]) && (forall v :: v in r[k..] ==> v in unused[i..])
      && (k < |r| && r[k] == unused[i] <==>
            k < bound && Fits(l, DebitQuotas(l, qs, Flat(Groups(share, reqs, r[..k]))), unused[i], TotalBinding(reqs)))
  {
    hide *;
    var n := |unused|;
    var before := MonoRun(l, share, unused, qs, reqs, i, bound);
    k := |before|;
    MonoRunTakes(l, share, unused, qs, reqs, i, bound);
    MonoRunGrows(l, share, unused, qs, reqs, i, n, bound);
    MonoRunGrows(l, share, unused, qs, reqs, i + 1, n, bound);
    MonoRunStep(l, share, unused, qs, reqs, i, bound);
    var r, next := MonoRun(l, share, unused, qs, reqs, n, bound), MonoRun(l, share, unused, qs, reqs, i + 1, bound);
    assert unused[i..n] == unused[i..] && r[..k] == before;
    NotLater(unused, i);
    assert unused[i + 1..n] == unused[i + 1..];
    assert next == before && k < |r| ==> r[k] in r[|next|..];
  }

  lemma MonoRunStep(l: Topology, share: Share, unused: seq<Volume>, qs: seq<Quota>, reqs: seq<VolumeBinding>, i: nat, bound: nat)
    requires i < |unused|
    ensures var r := MonoRun(l, share, unused, qs, reqs, i, bound);
      MonoRun(l, share, unused, qs, reqs, i + 1, bound) ==
        if |r| < bound && Fits(l, DebitQuotas(l, qs, Flat(Groups(share, reqs, r))), unused[i], TotalBinding(reqs))
        then r + [unused[i]] else r
  {
    hide Fits, TotalBinding;
  }

  lemma NotLater(vs: seq<Volume>, i: nat)
    requires Distinct(vs) && i < |vs|
    ensures vs[i] !in vs[i + 1..]
  {
    forall j | i < j < |vs| ensures vs[j] != vs[i] {
      assert Apart(vs[i], vs[j]);
    }
  }

  /** Together the groups take from each volume taken exactly its size, and no bytes anywhere else. */
  lemma {:induction false} GroupsBytes(share: Share, reqs: seq<VolumeBinding>, vs: seq<Volume>, device: string)
    requires reqs != [] && Distinct(vs)
    ensures forall v :: v in vs && v.device == device ==> BytesOn(Flat(Groups(share, reqs, vs)), device) == v.size
    ensures !Listed(vs, device) ==> BytesOn(Flat(Groups(share, reqs, vs)), device) == 0
  {
    if vs == [] {
      assert Groups(share, reqs, vs) == [];
    } else {
      var front, last := vs[..|vs| - 1], vs[|vs| - 1];
      assert vs == front + [last];
      assert Distinct(front) by {
        forall i, j | 0 <= i < j < |front| ensures Apart(front[i], front[j]) {
          assert Apart(vs[i], vs[j]);
        }
      }
      GroupsBytes(share, reqs, front, device);
      GroupsAppend(share, reqs, front, last);
      BytesConcat(Flat(Groups(share, reqs, front)), MonoGroup(share, reqs, last), device);
      GroupBytes(share, reqs, last, device);
      if last.device == device && Listed(front, device) {
        var v :| v in front && v.device == device;
        var k :| 0 <= k < |front| && front[k] == v;
        DistinctAt(vs, k, |vs| - 1);
      }
    }
  }

  /** The groups never overdraw a disk. */
  lemma {:induction false} MonoRunQuotas(l: Topology, share: Share, unused: seq<Volume>, qs: seq<Quota>,
      reqs: seq<VolumeBinding>, n: nat, bound: nat)
    requires n <= |unused| && ValidAll(reqs) && |qs| == |l.slots| && NonNegativeQuotas(qs)
    ensures NonNegativeQuotas(DebitQuotas(l, qs, Flat(Groups(share, reqs, MonoRun(l, share, unused, qs, reqs, n, bound)))))
  {
    if n == 0 {
      assert Groups(share, reqs, []) == [];
      DebitNil(l, Pool([], [], qs));
    } else {
      MonoRunQuotas(l, share, unused, qs, reqs, n - 1, bound);
      var r := MonoRun(l, share, unused, qs, reqs, n - 1, bound);
      var v := unused[n - 1];
      var d := DebitQuotas(l, qs, Flat(Groups(share, reqs, r)));
      GroupsAppend(share, reqs, r, v);
      DebitQuotasConcat(l, qs, Flat(Groups(share, reqs, r)), MonoGroup(share, reqs, v));
      if |r| < bound && Fits(l, d, v, TotalBinding(reqs)) {
        GroupAffordable(l, share, d, reqs, v);
      }
    }
  }

  lemma GroupAffordable(l: Topology, share: Share, qs: seq<Quota>, reqs: seq<VolumeBinding>, v: Volume)
    requires ValidAll(reqs) && |qs| == |l.slots| && NonNegativeQuotas(qs) && Qualified(l, qs, v.device, TotalBinding(reqs))
    ensures NonNegativeQuotas(DebitQuotas(l, qs, MonoGroup(share, reqs, v)))
  {
    var d := DebitQuotas(l, qs, MonoGroup(share, reqs, v));
    forall j | 0 <= j < |d| ensures d[j].NonNegative() {
      forall m: Meter ensures d[j].Get(m) >= 0 {
        GroupQuota(l, share, reqs, v, j, m);
        MeterZero(qs[j], m);
        LeqByMeter(TotalBinding(reqs).quota, qs[j]);
      }
      NonNegativeByMeter(d[j]);
    }
  }

  /** The disk entry of one monopoly group. */
  function MonoDisks(l: Topology, reqs: seq<VolumeBinding>, v: Volume): seq<Disk> {
    match l.Disk(v.device)
    case None => []
    case Some(j) =>
      if TotalBinding(reqs).RequireIOPS() then [Disk(l.slots[j].device, l.slots[j].mounts, TotalBinding(reqs).quota)] else []
  }
}
