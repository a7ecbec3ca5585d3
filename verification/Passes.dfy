/** The reference form of one plan: each request in turn takes the least volume that fits. */
module Passes {
  import opened Quantity
  import opened Options
  import opened Bindings
  import opened Disks
  import opened Volumes
  import opened Charges
  import opened Repetition

  /** isDiskIOPSQuotaQualified for the disk that covers a path. */
  predicate Qualified(l: Topology, qs: seq<Quota>, path: string, b: VolumeBinding) {
    match l.Disk(path)
    case None => !b.RequireIOPS()
    case Some(j) => j < |qs| && b.quota.Leq(qs[j])
  }

  predicate Fits(l: Topology, qs: seq<Quota>, v: Volume, b: VolumeBinding) {
    b.size <= v.size && Qualified(l, qs, v.device, b)
  }

  /** v is the least of the volumes that fit. */
  ghost predicate BestFit(l: Topology, qs: seq<Quota>, vs: seq<Volume>, b: VolumeBinding, v: Volume) {
    v in vs && Fits(l, qs, v, b) && forall w :: w in vs && Fits(l, qs, w, b) ==> Leq(v, w)
  }

  ghost function Pick(l: Topology, qs: seq<Quota>, vs: seq<Volume>, b: VolumeBinding): (r: Option<Volume>)
    ensures r.Some? ==> BestFit(l, qs, vs, b, r.value)
  {
    if exists v :: BestFit(l, qs, vs, b, v) then
      var v :| BestFit(l, qs, vs, b, v);
      Some(v)
    else
      None
  }

  lemma PickUnique(l: Topology, qs: seq<Quota>, vs: seq<Volume>, b: VolumeBinding, v: Volume)
    requires BestFit(l, qs, vs, b, v)
    ensures Pick(l, qs, vs, b) == Some(v)
  {
    LessTotal(v, Pick(l, qs, vs, b).value);
  }

  /** Some volume is picked exactly when some volume fits. */
  lemma PickExists(l: Topology, qs: seq<Quota>, vs: seq<Volume>, b: VolumeBinding)
    ensures Pick(l, qs, vs, b).Some? <==> exists v :: v in vs && Fits(l, qs, v, b)
  {
    if exists v :: v in vs && Fits(l, qs, v, b) {
      var v := LeastFitting(l, qs, vs, b);
      PickUnique(l, qs, vs, b, v);
    }
  }

  lemma {:induction false} LeastFitting(l: Topology, qs: seq<Quota>, vs: seq<Volume>, b: VolumeBinding) returns (v: Volume)
    requires exists v :: v in vs && Fits(l, qs, v, b)
    ensures BestFit(l, qs, vs, b, v)
  {
    var last := vs[|vs| - 1];
    var front := vs[..|vs| - 1];
    assert vs == front + [last];
    LessTotal(last, last);
    if exists v :: v in front && Fits(l, qs, v, b) {
      v := LeastFitting(l, qs, front, b);
      LessTotal(v, last);
      if Fits(l, qs, last, b) && Less(last, v) {
        forall w | w in front && Fits(l, qs, w, b) ensures Leq(last, w) {
          LeqTransitive(last, v, w);
        }
        v := last;
      }
    } else {
      v := last;
    }
  }

  /** The choice does not depend on the order the volumes are listed in. */
  lemma PickSame(l: Topology, qs: seq<Quota>, vs: seq<Volume>, ws: seq<Volume>, b: VolumeBinding)
    requires SameVolumes(vs, ws)
    ensures Pick(l, qs, vs, b) == Pick(l, qs, ws, b)
  {
    if exists v :: BestFit(l, qs, vs, b, v) {
      var v := Pick(l, qs, vs, b).value;
      assert BestFit(l, qs, ws, b, v);
      PickUnique(l, qs, ws, b, v);
    } else if exists v :: BestFit(l, qs, ws, b, v) {
      var v :| BestFit(l, qs, ws, b, v);
      assert BestFit(l, qs, vs, b, v);
    }
  }

  ghost function NormalPass(l: Topology, p: Pool, reqs: seq<VolumeBinding>): (r: Pass)
    ensures r.ok ==> |r.entries| == |reqs|
  {
    if reqs == [] then Pass(true, []) else
      var r := NormalPass(l, p, reqs[..|reqs| - 1]);
      if r.ok then NormalStep(l, Debit(l, p, r.entries), r.entries, reqs[|reqs| - 1]) else r
  }

  ghost function NormalStep(l: Topology, d: Pool, es: seq<Entry>, b: VolumeBinding): Pass {
    match Pick(l, d.quotas, d.used, b)
    case None => Pass(false, es)
    case Some(v) => Pass(true, es + [Entry(b, v.device, b.size)])
  }

  /** A mount binding charges quota on the disk of its source, and no bytes. */
  function MountEntries(mounts: seq<VolumeBinding>): (es: seq<Entry>)
    ensures |es| == |mounts|
  {
    seq(|mounts|, i requires 0 <= i < |mounts| => Entry(mounts[i], mounts[i].source, 0))
  }

  /** The host can bear one more entry: its bytes on its volume, its quota on its disk. */
  ghost predicate Bears(l: Topology, p: Pool, e: Entry) {
    && (e.size == 0 || forall v :: (v in p.used || v in p.unused) && v.device == e.device ==> e.size <= v.size)
    && (!e.binding.RequireIOPS() || Qualified(l, p.quotas, e.device, e.binding))
  }

  /** Given placements charged in order, each checked against what the ones before it left. */
  ghost function CheckedPass(l: Topology, p: Pool, es: seq<Entry>): (r: Pass)
    ensures r.ok ==> r.entries == es
  {
    if es == [] then Pass(true, []) else
      var r := CheckedPass(l, p, es[..|es| - 1]);
      if r.ok && Bears(l, Debit(l, p, r.entries), es[|es| - 1]) then Pass(true, es) else Pass(false, r.entries)
  }

  /** One plan: the normal requests, then the mount requests on what is left. */
  ghost function OnePass(l: Topology, p: Pool, normal: seq<VolumeBinding>, mount: seq<VolumeBinding>): Pass {
    var n := NormalPass(l, p, normal);
    if !n.ok then n else
      var m := CheckedPass(l, Debit(l, p, n.entries), MountEntries(mount));
      Pass(m.ok, n.entries + m.entries)
  }

  /** One plan as a function of what is left of the host. */
  ghost function PassOf(l: Topology, normal: seq<VolumeBinding>, mount: seq<VolumeBinding>): Pool -> Pass {
    (p: Pool) => OnePass(l, p, normal, mount)
  }

  // ---- No pass overdraws the host

  /** Distinct devices, one quota for each disk, nothing overdrawn. */
  ghost predicate Good(l: Topology, p: Pool) {
    && Distinct(p.used) && Distinct(p.unused) && Disjoint(p.used, p.unused)
    && |p.quotas| == |l.slots| && Solvent(p)
  }

  ghost predicate ValidAll(reqs: seq<VolumeBinding>) {
    forall b :: b in reqs ==> ValidBinding(b)
  }

  /** Charging one entry that its volume and its disk can bear. */
  lemma ChargeGood(l: Topology, p: Pool, e: Entry)
    requires Good(l, p) && e.size >= 0 && e.binding.quota.NonNegative()
    requires forall v :: (v in p.used || v in p.unused) && v.device == e.device ==> e.size <= v.size
    requires !e.binding.RequireIOPS() || Qualified(l, p.quotas, e.device, e.binding)
    ensures Good(l, Debit(l, p, [e]))
  {
    var d := Debit(l, p, [e]);
    DebitShape(p, [e]);
    forall v | v in d.used ensures v.size >= 0 {
      var i :| 0 <= i < |d.used| && d.used[i] == v;
      BytesAppend([], e, v.device);
      assert [] + [e] == [e] && p.used[i] in p.used;
    }
    forall v | v in d.unused ensures v.size >= 0 {
      var i :| 0 <= i < |d.unused| && d.unused[i] == v;
      BytesAppend([], e, v.device);
      assert [] + [e] == [e] && p.unused[i] in p.unused;
    }
    forall j | 0 <= j < |d.quotas| ensures d.quotas[j].NonNegative() {
      forall m: Meter ensures d.quotas[j].Get(m) >= 0 {
        QuotaAppend(l, [], e, j, m);
        assert [] + [e] == [e];
        LeqByMeter(e.binding.quota, p.quotas[j]);
        MeterZero(e.binding.quota, m);
        MeterZero(p.quotas[j], m);
      }
      NonNegativeByMeter(d.quotas[j]);
    }
  }

  lemma MeterZero(q: Quota, m: Meter)
    requires q.NonNegative()
    ensures q.Get(m) >= 0
    ensures !q.Positive() ==> q.Get(m) == 0
  {
  }

  lemma NonNegativeByMeter(q: Quota)
    requires forall m: Meter :: q.Get(m) >= 0
    ensures q.NonNegative()
  {
    assert q.Get(ReadIOPS) >= 0 && q.Get(WriteIOPS) >= 0 && q.Get(ReadBPS) >= 0 && q.Get(WriteBPS) >= 0;
  }

  ghost predicate Listed(vs: seq<Volume>, device: string) {
    exists v :: v in vs && v.device == device
  }

  /** Charges change sizes, not devices. */
  lemma DebitShape(p: Pool, es: seq<Entry>)
    requires Distinct(p.used) && Distinct(p.unused) && Disjoint(p.used, p.unused)
    ensures var d := DebitVolumes(p.used, es); var u := DebitVolumes(p.unused, es);
      Distinct(d) && Distinct(u) && Disjoint(d, u)
  {
    var d, u := DebitVolumes(p.used, es), DebitVolumes(p.unused, es);
    forall i, j | 0 <= i < j < |d| ensures Apart(d[i], d[j]) {
      assert Apart(p.used[i], p.used[j]);
    }
    forall i, j | 0 <= i < j < |u| ensures Apart(u[i], u[j]) {
      assert Apart(p.unused[i], p.unused[j]);
    }
    forall v, w | v in d && w in u ensures Apart(v, w) {
      var i :| 0 <= i < |d| && d[i] == v;
      var j :| 0 <= j < |u| && u[j] == w;
      assert Apart(p.used[i], p.unused[j]);
    }
  }

  lemma DebitListed(vs: seq<Volume>, es: seq<Entry>, device: string)
    ensures Listed(DebitVolumes(vs, es), device) <==> Listed(vs, device)
  {
    var d := DebitVolumes(vs, es);
    if v :| v in vs && v.device == device {
      var i :| 0 <= i < |vs| && vs[i] == v;
      assert d[i] in d;
    }
    if v :| v in d && v.device == device {
      var i :| 0 <= i < |d| && d[i] == v;
      assert vs[i] in vs;
    }
  }

  /** What the entries of a normal pass look like: request k with its own size, on a used device. */
  ghost predicate Serves(es: seq<Entry>, reqs: seq<VolumeBinding>, vs: seq<Volume>) {
    && |es| <= |reqs|
    && forall k :: 0 <= k < |es| ==> es[k].binding == reqs[k] && es[k].size == reqs[k].size && Listed(vs, es[k].device)
  }

  lemma {:induction false} NormalPassGood(l: Topology, p: Pool, reqs: seq<VolumeBinding>)
    requires Good(l, p) && ValidAll(reqs)
    ensures Good(l, Debit(l, p, NormalPass(l, p, reqs).entries))
  {
    if reqs == [] {
      DebitNil(l, p);
    } else {
      var n := |reqs| - 1;
      assert reqs[n] in reqs;
      NormalPassGood(l, p, reqs[..n]);
      var r := NormalPass(l, p, reqs[..n]);
      if r.ok {
        NormalStepGood(l, p, r.entries, reqs[n]);
      }
    }
  }

  lemma NormalStepGood(l: Topology, p: Pool, es: seq<Entry>, b: VolumeBinding)
    requires Good(l, Debit(l, p, es)) && ValidBinding(b)
    ensures Good(l, Debit(l, p, NormalStep(l, Debit(l, p, es), es, b).entries))
  {
    var d := Debit(l, p, es);
    match Pick(l, d.quotas, d.used, b)
    case None =>
    case Some(v) =>
      var e := Entry(b, v.device, b.size);
      OnlyVolume(d, v);
      ChargeGood(l, d, e);
      DebitConcat(l, p, es, [e]);
  }

  /** A normal pass serves the requests in order, each with its own size. */
  lemma {:induction false} NormalPassServes(l: Topology, p: Pool, reqs: seq<VolumeBinding>)
    ensures Serves(NormalPass(l, p, reqs).entries, reqs, p.used)
  {
    if reqs != [] {
      var n := |reqs| - 1;
      NormalPassServes(l, p, reqs[..n]);
      var r := NormalPass(l, p, reqs[..n]);
      if r.ok {
        NormalStepServes(l, p, r.entries, reqs);
      }
    }
  }

  /** A normal pass fails only at a request that no used volume fits once those before it are charged. */
  lemma {:induction false} NormalPassStuck(l: Topology, p: Pool, reqs: seq<VolumeBinding>)
    ensures var r := NormalPass(l, p, reqs); var d := Debit(l, p, r.entries);
      !r.ok ==> |r.entries| < |reqs| && forall v :: v in d.used ==> !Fits(l, d.quotas, v, reqs[|r.entries|])
  {
    if reqs != [] {
      var n := |reqs| - 1;
      NormalPassStuck(l, p, reqs[..n]);
      var d := Debit(l, p, NormalPass(l, p, reqs[..n]).entries);
      PickExists(l, d.quotas, d.used, reqs[n]);
    }
  }

  lemma NormalStepServes(l: Topology, p: Pool, es: seq<Entry>, reqs: seq<VolumeBinding>)
    requires reqs != [] && |es| == |reqs| - 1 && Serves(es, reqs[..|reqs| - 1], p.used)
    ensures Serves(NormalStep(l, Debit(l, p, es), es, reqs[|reqs| - 1]).entries, reqs, p.used)
  {
    var d := Debit(l, p, es);
    match Pick(l, d.quotas, d.used, reqs[|reqs| - 1])
    case None =>
    case Some(v) => DebitListed(p.used, es, v.device);
  }

  /** A used device is that of one volume only. */
  lemma OnlyVolume(p: Pool, v: Volume)
    requires Distinct(p.used) && Disjoint(p.used, p.unused) && v in p.used
    ensures forall w :: (w in p.used || w in p.unused) && w.device == v.device ==> w == v
  {
    forall w | (w in p.used || w in p.unused) && w.device == v.device ensures w == v {
      assert w in p.unused ==> Apart(v, w);
      if w in p.used {
        var i :| 0 <= i < |p.used| && p.used[i] == v;
        var j :| 0 <= j < |p.used| && p.used[j] == w;
        DistinctAt(p.used, i, j);
      }
    }
  }

  lemma {:induction false} CheckedPassGood(l: Topology, p: Pool, es: seq<Entry>)
    requires Good(l, p) && NonNegativeCharges(es)
    ensures Good(l, Debit(l, p, CheckedPass(l, p, es).entries))
  {
    if es == [] {
      DebitNil(l, p);
    } else {
      var front := es[..|es| - 1];
      var e := es[|es| - 1];
      assert e in es && es == front + [e];
      CheckedPassGood(l, p, front);
      var r := CheckedPass(l, p, front);
      var d := Debit(l, p, r.entries);
      if r.ok && Bears(l, d, e) {
        ChargeGood(l, d, e);
        DebitConcat(l, p, front, [e]);
      }
    }
  }

  lemma MountEntriesValid(mounts: seq<VolumeBinding>)
    requires ValidAll(mounts)
    ensures NonNegativeCharges(MountEntries(mounts))
  {
    var es := MountEntries(mounts);
    forall e | e in es ensures e.size >= 0 && e.binding.quota.NonNegative() {
      var i :| 0 <= i < |es| && es[i] == e;
      assert mounts[i] in mounts;
    }
  }

  ghost predicate OnDisks(l: Topology, es: seq<Entry>) {
    forall e :: e in es && e.binding.RequireIOPS() ==> l.Disk(e.device).Some?
  }

  /** A list of checked charges succeeds exactly when the host can pay their sums, whatever their order. */
  lemma {:induction false} CheckedIffSolvent(l: Topology, p: Pool, es: seq<Entry>)
    requires Good(l, p) && NonNegativeCharges(es)
    ensures CheckedPass(l, p, es).ok <==> Solvent(Debit(l, p, es)) && OnDisks(l, es)
  {
    CheckedPassGood(l, p, es);
    if es == [] {
      DebitNil(l, p);
    } else {
      var front := es[..|es| - 1];
      var e := es[|es| - 1];
      assert e in es && es == front + [e];
      CheckedIffSolvent(l, p, front);
      if Solvent(Debit(l, p, es)) && OnDisks(l, es) {
        DebitMonotone(l, p, front, [e]);
        DebitConcat(l, p, front, [e]);
        SolventBears(l, Debit(l, p, front), e);
      }
    }
  }

  /** What is solvent after more charges was solvent before them. */
  lemma DebitMonotone(l: Topology, p: Pool, a: seq<Entry>, b: seq<Entry>)
    requires NonNegativeCharges(b) && Solvent(Debit(l, p, a + b))
    ensures Solvent(Debit(l, p, a))
  {
    var d, s := Debit(l, p, a), Debit(l, p, a + b);
    forall v | v in d.used ensures v.size >= 0 {
      var i :| 0 <= i < |d.used| && d.used[i] == v;
      BytesConcat(a, b, v.device);
      BytesNonNegative(b, v.device);
      assert s.used[i] in s.used;
    }
    forall v | v in d.unused ensures v.size >= 0 {
      var i :| 0 <= i < |d.unused| && d.unused[i] == v;
      BytesConcat(a, b, v.device);
      BytesNonNegative(b, v.device);
      assert s.unused[i] in s.unused;
    }
    forall j | 0 <= j < |d.quotas| ensures d.quotas[j].NonNegative() {
      assert s.quotas[j].NonNegative();
      forall m: Meter ensures d.quotas[j].Get(m) >= 0 {
        QuotaConcat(l, a, b, j, m);
        QuotaNonNegative(l, b, j, m);
        MeterZero(s.quotas[j], m);
      }
      NonNegativeByMeter(d.quotas[j]);
    }
  }

  lemma SolventBears(l: Topology, p: Pool, e: Entry)
    requires Solvent(Debit(l, p, [e])) && |p.quotas| == |l.slots|
    requires e.binding.RequireIOPS() ==> l.Disk(e.device).Some?
    ensures Bears(l, p, e)
  {
    var s := Debit(l, p, [e]);
    forall v | (v in p.used || v in p.unused) && v.device == e.device ensures e.size <= v.size {
      BytesAppend([], e, v.device);
      assert [] + [e] == [e];
      if v in p.used {
        var i :| 0 <= i < |p.used| && p.used[i] == v;
        assert s.used[i] in s.used;
      } else {
        var i :| 0 <= i < |p.unused| && p.unused[i] == v;
        assert s.unused[i] in s.unused;
      }
    }
    if e.binding.RequireIOPS() {
      var j := l.Disk(e.device).value;
      assert s.quotas[j].NonNegative();
      forall m: Meter ensures e.binding.quota.Get(m) <= p.quotas[j].Get(m) {
        QuotaAppend(l, [], e, j, m);
        assert [] + [e] == [e];
        MeterZero(s.quotas[j], m);
      }
      LeqByMeter(e.binding.quota, p.quotas[j]);
    }
  }

  lemma OnePassGood(l: Topology, p: Pool, normal: seq<VolumeBinding>, mount: seq<VolumeBinding>)
    requires Good(l, p) && ValidAll(normal) && ValidAll(mount)
    ensures Good(l, Debit(l, p, OnePass(l, p, normal, mount).entries))
  {
    NormalPassGood(l, p, normal);
    var n := NormalPass(l, p, normal);
    if n.ok {
      var d := Debit(l, p, n.entries);
      MountEntriesValid(mount);
      CheckedPassGood(l, d, MountEntries(mount));
      DebitConcat(l, p, n.entries, CheckedPass(l, d, MountEntries(mount)).entries);
    }
  }

  /** A successful pass serves every normal request on a used device and draws every mount quota. */
  lemma OnePassServes(l: Topology, p: Pool, normal: seq<VolumeBinding>, mount: seq<VolumeBinding>)
    ensures var o := OnePass(l, p, normal, mount);
      o.ok ==> |o.entries| == |normal| + |mount| && Serves(o.entries[..|normal|], normal, p.used) && o.entries[|normal|..] == MountEntries(mount)
  {
    NormalPassServes(l, p, normal);
  }

  /** Earlier charges do not change which devices there are. */
  lemma SamePlaces(vs: seq<Volume>, fs: seq<Entry>, es: seq<Entry>, reqs: seq<VolumeBinding>)
    requires Serves(es, reqs, DebitVolumes(vs, fs))
    ensures Serves(es, reqs, vs)
  {
    forall k | 0 <= k < |es| ensures Listed(vs, es[k].device) {
      DebitListed(vs, fs, es[k].device);
    }
  }
}
