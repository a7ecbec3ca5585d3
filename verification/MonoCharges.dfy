/** What one monopoly group leaves of a host. */
module MonoCharges {
  import opened Quantity
  import opened Bindings
  import opened Disks
  import opened Volumes
  import opened Sums
  import opened Charges
  import opened Repetition
  import opened Passes
  import opened Reordering
  import opened Monopoly

  lemma TotalNext(reqs: seq<VolumeBinding>, i: nat)
    requires i < |reqs|
    ensures TotalBinding(reqs[..i + 1]) == TotalBinding(reqs[..i]).AddQuota(reqs[i])
  {
    var a, b := TotalBinding(reqs[..i + 1]), TotalBinding(reqs[..i]).AddQuota(reqs[i]);
    assert reqs[..i + 1] == reqs[..i] + [reqs[i]];
    SumAppend(SizeAsked(), reqs[..i], reqs[i]);
    forall m: Meter ensures a.quota.Get(m) == b.quota.Get(m) {
      SumAppend(MeterAsked(m), reqs[..i], reqs[i]);
      TotalMeter(reqs[..i + 1], m);
      TotalMeter(reqs[..i], m);
    }
    EqualByMeter(a.quota, b.quota);
  }

  /** The shares of the first i requests, and what they leave of the volume. */
  ghost predicate Shared(share: Share, reqs: seq<VolumeBinding>, v: Volume, i: nat, plan: VolumePlan, left: int) {
    && |plan| == i <= |reqs| && left == v.size - SumBy(ShareOf(share, TotalSize(reqs), v.size), reqs[..i])
    && forall k :: 0 <= k < i ==> plan[k] == Entry(reqs[k], v.device, share(reqs[k].size, TotalSize(reqs), v.size))
  }

  lemma SharedNext(share: Share, reqs: seq<VolumeBinding>, v: Volume, i: nat, plan: VolumePlan, left: int)
    requires Shared(share, reqs, v, i, plan, left) && i < |reqs|
    ensures var size := share(reqs[i].size, TotalSize(reqs), v.size);
      Shared(share, reqs, v, i + 1, plan + [Entry(reqs[i], v.device, size)], left - size)
  {
    assert reqs[..i + 1] == reqs[..i] + [reqs[i]];
    SumAppend(ShareOf(share, TotalSize(reqs), v.size), reqs[..i], reqs[i]);
  }

  /** With the remainder given to the first request the shares are the group. */
  lemma SharedAll(share: Share, reqs: seq<VolumeBinding>, v: Volume, plan: VolumePlan, left: int)
    requires reqs != [] && Shared(share, reqs, v, |reqs|, plan, left)
    ensures plan[0 := plan[0].(size := plan[0].size + left)] == MonoGroup(share, reqs, v)
  {
    assert reqs[..|reqs|] == reqs;
  }

  /** A group empties its own volume and leaves all others alone. */
  lemma GroupVolumes(share: Share, reqs: seq<VolumeBinding>, vs: seq<Volume>, v: Volume)
    requires Distinct(vs) && reqs != []
    ensures !Listed(vs, v.device) ==> DebitVolumes(vs, MonoGroup(share, reqs, v)) == vs
    ensures forall k :: 0 <= k < |vs| && vs[k] == v ==> DebitVolumes(vs, MonoGroup(share, reqs, v)) == vs[k := Volume(v.device, 0)]
  {
    var g := MonoGroup(share, reqs, v);
    forall device ensures BytesOn(g, device) == if device == v.device then v.size else 0 {
      GroupBytes(share, reqs, v, device);
    }
    if !Listed(vs, v.device) {
      VolumesUntouched(vs, g);
    }
    forall k | 0 <= k < |vs| && vs[k] == v ensures DebitVolumes(vs, g) == vs[k := Volume(v.device, 0)] {
      var d, r := DebitVolumes(vs, g), vs[k := Volume(v.device, 0)];
      forall i | 0 <= i < |vs| ensures d[i] == r[i] {
        if vs[i].device == v.device {
          DistinctAt(vs, i, k);
        }
      }
    }
  }

  lemma GroupQuotas(l: Topology, share: Share, reqs: seq<VolumeBinding>, qs: seq<Quota>, v: Volume)
    requires |qs| == |l.slots|
    ensures DebitQuotas(l, qs, MonoGroup(share, reqs, v)) == LessQuota(qs, l.Disk(v.device), TotalBinding(reqs).quota)
  {
    var d, r := DebitQuotas(l, qs, MonoGroup(share, reqs, v)), LessQuota(qs, l.Disk(v.device), TotalBinding(reqs).quota);
    forall j | 0 <= j < |qs| ensures d[j] == r[j] {
      forall m: Meter ensures d[j].Get(m) == r[j].Get(m) {
        GroupQuota(l, share, reqs, v, j, m);
      }
      EqualByMeter(d[j], r[j]);
    }
  }

  /** A host can bear a group whose total fits its volume. */
  lemma GroupGood(l: Topology, share: Share, p: Pool, reqs: seq<VolumeBinding>, v: Volume)
    requires Good(l, p) && ValidAll(reqs) && reqs != [] && (v in p.used || v in p.unused)
    requires Qualified(l, p.quotas, v.device, TotalBinding(reqs))
    ensures Good(l, Debit(l, p, MonoGroup(share, reqs, v)))
  {
    var g := MonoGroup(share, reqs, v);
    GroupAffordable(l, share, p.quotas, reqs, v);
    DebitShape(p, g);
    GroupLeaves(share, reqs, p.used, v, p);
    GroupLeaves(share, reqs, p.unused, v, p);
  }

  lemma GroupLeaves(share: Share, reqs: seq<VolumeBinding>, vs: seq<Volume>, v: Volume, p: Pool)
    requires Distinct(p.used) && Distinct(p.unused) && Disjoint(p.used, p.unused) && NonNegative(p.used) && NonNegative(p.unused)
    requires (vs == p.used || vs == p.unused) && reqs != [] && (v in p.used || v in p.unused)
    ensures NonNegative(DebitVolumes(vs, MonoGroup(share, reqs, v)))
  {
    var g := MonoGroup(share, reqs, v);
    var d := DebitVolumes(vs, g);
    forall w | w in d ensures w.size >= 0 {
      var i :| 0 <= i < |d| && d[i] == w;
      GroupBytes(share, reqs, v, w.device);
      assert vs[i] in vs;
      if vs[i].device == v.device {
        SameVolume(p, vs[i], v);
      }
    }
  }

  /** A device of a host is that of one volume. */
  lemma SameVolume(p: Pool, v: Volume, w: Volume)
    requires Distinct(p.used) && Distinct(p.unused) && Disjoint(p.used, p.unused)
    requires (v in p.used || v in p.unused) && (w in p.used || w in p.unused) && v.device == w.device
    ensures v == w && (v in p.used <==> w in p.used)
  {
    assert (v in p.used && w in p.unused ==> Apart(v, w)) && (w in p.used && v in p.unused ==> Apart(w, v));
    if v in p.used && w in p.used {
      var i :| 0 <= i < |p.used| && p.used[i] == v;
      var j :| 0 <= j < |p.used| && p.used[j] == w;
      DistinctAt(p.used, i, j);
    } else if v in p.unused && w in p.unused {
      var i :| 0 <= i < |p.unused| && p.unused[i] == v;
      var j :| 0 <= j < |p.unused| && p.unused[j] == w;
      DistinctAt(p.unused, i, j);
    }
  }

  lemma ListedOnce(p: Pool, v: Volume)
    requires Disjoint(p.used, p.unused)
    ensures v in p.used ==> !Listed(p.unused, v.device)
    ensures v in p.unused ==> !Listed(p.used, v.device)
  {
    forall w | w in p.used || w in p.unused
      ensures v in p.used && w in p.unused ==> w.device != v.device
      ensures v in p.unused && w in p.used ==> w.device != v.device
    {
      assert Apart(v, w) || v.device == w.device;
      assert Apart(w, v) || v.device == w.device;
    }
  }

  /** The host after a group took volume k of its used volumes, or of its unused ones. */
  lemma GroupCharged(l: Topology, share: Share, p: Pool, reqs: seq<VolumeBinding>, v: Volume, inUsed: bool, k: nat, q: Pool)
    requires Good(l, p) && ValidAll(reqs) && reqs != [] && Qualified(l, p.quotas, v.device, TotalBinding(reqs))
    requires inUsed ==> k < |p.used| && p.used[k] == v && q.used == p.used[k := Volume(v.device, 0)] && q.unused == p.unused
    requires !inUsed ==> k < |p.unused| && p.unused[k] == v && q.unused == p.unused[k := Volume(v.device, 0)] && q.used == p.used
    requires q.quotas == LessQuota(p.quotas, l.Disk(v.device), TotalBinding(reqs).quota)
    ensures q == Debit(l, p, MonoGroup(share, reqs, v)) && Good(l, q)
  {
    assert v in p.used || v in p.unused;
    GroupGood(l, share, p, reqs, v);
    GroupQuotas(l, share, reqs, p.quotas, v);
    GroupVolumes(share, reqs, p.used, v);
    GroupVolumes(share, reqs, p.unused, v);
    ListedOnce(p, v);
  }

  lemma MonoFits(l: Topology, qs: seq<Quota>, v: Volume, reqs: seq<VolumeBinding>)
    requires ValidAll(reqs)
    ensures Fits(l, qs, v, TotalBinding(reqs)) <==> TotalSize(reqs) <= v.size && Qualified(l, qs, v.device, TotalBinding(reqs))
    ensures TotalBinding(reqs).quota.NonNegative()
    ensures Qualified(l, qs, v.device, TotalBinding(reqs)) && TotalBinding(reqs).RequireIOPS() ==> l.Disk(v.device).Some?
  {
    TotalValid(reqs);
  }

  // ---- Group after group over the unused volumes

  /** Among the first i unused volumes those in taken were taken, and the host is what they leave of p. */
  ghost predicate MonoSoFar(l: Topology, share: Share, p: Pool, reqs: seq<VolumeBinding>, i: nat, bound: nat, taken: seq<Volume>, q: Pool) {
    && i <= |p.unused| && taken == MonoRun(l, share, p.unused, p.quotas, reqs, i, bound)
    && q == Debit(l, p, Flat(Groups(share, reqs, taken)))
  }

  lemma MonoStart(l: Topology, share: Share, p: Pool, reqs: seq<VolumeBinding>, bound: nat)
    ensures MonoSoFar(l, share, p, reqs, 0, bound, [], p)
  {
    DebitNil(l, p);
    assert Groups(share, reqs, []) == [];
  }

  /** Volume i is as it was. */
  lemma MonoUntouched(l: Topology, share: Share, p: Pool, reqs: seq<VolumeBinding>, i: nat, bound: nat, taken: seq<Volume>, q: Pool)
    requires Good(l, p) && reqs != [] && MonoSoFar(l, share, p, reqs, i, bound, taken, q) && i < |p.unused|
    ensures q.unused[i] == p.unused[i]
  {
    MonoRunTakes(l, share, p.unused, p.quotas, reqs, i, bound);
    var v := p.unused[i];
    forall w | w in taken ensures w.device != v.device {
      var k :| 0 <= k < i && p.unused[..i][k] == w;
      assert Apart(p.unused[k], p.unused[i]);
    }
    GroupsBytes(share, reqs, taken, v.device);
  }

  lemma MonoNext(l: Topology, share: Share, p: Pool, reqs: seq<VolumeBinding>, i: nat, bound: nat, taken: seq<Volume>, q: Pool)
    requires Good(l, p) && reqs != [] && MonoSoFar(l, share, p, reqs, i, bound, taken, q) && i < |p.unused| && |taken| < bound
    ensures var v := p.unused[i];
      if Fits(l, q.quotas, v, TotalBinding(reqs))
      then MonoSoFar(l, share, p, reqs, i + 1, bound, taken + [v], Debit(l, q, MonoGroup(share, reqs, v)))
      else MonoSoFar(l, share, p, reqs, i + 1, bound, taken, q)
  {
    var v := p.unused[i];
    GroupsAppend(share, reqs, taken, v);
    DebitConcat(l, p, Flat(Groups(share, reqs, taken)), MonoGroup(share, reqs, v));
  }

  /** When bound groups are made the rest of the volumes is not looked at. */
  lemma {:induction false} MonoFull(l: Topology, share: Share, p: Pool, reqs: seq<VolumeBinding>, i: nat, n: nat, bound: nat)
    requires i <= n <= |p.unused| && |MonoRun(l, share, p.unused, p.quotas, reqs, i, bound)| >= bound
    ensures MonoRun(l, share, p.unused, p.quotas, reqs, n, bound) == MonoRun(l, share, p.unused, p.quotas, reqs, i, bound)
    decreases n
  {
    if i < n {
      MonoFull(l, share, p, reqs, i, n - 1, bound);
    }
  }

  /** The group and the disk entry of every volume taken. */
  ghost predicate PlansOf(l: Topology, share: Share, reqs: seq<VolumeBinding>, taken: seq<Volume>,
      plans: seq<VolumePlan>, disks: seq<seq<Disk>>) {
    && plans == Groups(share, reqs, taken) && |disks| == |taken|
    && forall i :: 0 <= i < |taken| ==> disks[i] == MonoDisks(l, reqs, taken[i])
  }

  lemma PlansOfNext(l: Topology, share: Share, reqs: seq<VolumeBinding>, taken: seq<Volume>, plans: seq<VolumePlan>,
      disks: seq<seq<Disk>>, v: Volume)
    requires PlansOf(l, share, reqs, taken, plans, disks)
    ensures PlansOf(l, share, reqs, taken + [v], plans + [MonoGroup(share, reqs, v)], disks + [MonoDisks(l, reqs, v)])
  {
    assert Groups(share, reqs, taken + [v]) == Groups(share, reqs, taken) + [MonoGroup(share, reqs, v)];
  }
}
