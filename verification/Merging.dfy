/** What a reallocation request makes of a workload's bindings. */
module Merging {
  import opened Quantity
  import opened Options
  import opened Bindings
  import opened Disks
  import opened Sums
  import opened Charges
  import opened Passes

  type Key = (string, string, string)

  /** The map of MergeVolumeBindings: bindings of one key are added up, under the key of the first. */
  function MergedMap(vbs: seq<VolumeBinding>): (m: map<Key, VolumeBinding>)
    ensures forall k :: k in m ==> m[k].MapKey() == k
    ensures forall k :: k in m <==> exists b :: b in vbs && b.MapKey() == k
  {
    if vbs == [] then map[] else
      var last := vbs[|vbs| - 1];
      var m := MergedMap(vbs[..|vbs| - 1]);
      assert vbs == vbs[..|vbs| - 1] + [last];
      m[last.MapKey() := MergedIn(m, last)]
  }

  lemma MergedAppend(vbs: seq<VolumeBinding>, b: VolumeBinding)
    ensures MergedMap(vbs + [b]) == MergedMap(vbs)[b.MapKey() := MergedIn(MergedMap(vbs), b)]
  {
    assert (vbs + [b])[..|vbs|] == vbs;
  }

  /** What the map holds under b's key once b is merged in. */
  function MergedIn(m: map<Key, VolumeBinding>, b: VolumeBinding): VolumeBinding {
    if b.MapKey() in m then m[b.MapKey()].AddQuota(b) else b
  }

  ghost predicate UniqueKeys(vbs: seq<VolumeBinding>) {
    forall i, j :: 0 <= i < j < |vbs| ==> vbs[i].MapKey() != vbs[j].MapKey()
  }

  function SizeUnder(k: Key): VolumeBinding -> int {
    (b: VolumeBinding) => if b.MapKey() == k then b.size else 0
  }

  function MeterUnder(k: Key, m: Meter): VolumeBinding -> int {
    (b: VolumeBinding) => if b.MapKey() == k then b.quota.Get(m) else 0
  }

  /** b's key occurs among the bindings, and b has all that is asked for under it: the sum of the sizes, and of every meter. */
  ghost predicate AddsUp(vbs: seq<VolumeBinding>, b: VolumeBinding) {
    && (exists x :: x in vbs && x.MapKey() == b.MapKey())
    && b.size == SumBy(SizeUnder(b.MapKey()), vbs)
    && forall m: Meter :: b.quota.Get(m) == SumBy(MeterUnder(b.MapKey(), m), vbs)
  }

  /** r lists, once each and in any order, what the request and the workload's bindings add up to, without negative sizes. */
  ghost predicate MergedAs(request: seq<VolumeBinding>, origin: seq<VolumeBinding>, r: seq<VolumeBinding>) {
    UniqueKeys(r) && forall b :: b in r <==> AddsUp(origin + request, b) && b.size >= 0
  }

  lemma {:induction false} MapSums(vbs: seq<VolumeBinding>, k: Key)
    ensures (if k in MergedMap(vbs) then MergedMap(vbs)[k].size else 0) == SumBy(SizeUnder(k), vbs)
    ensures forall m: Meter :: (if k in MergedMap(vbs) then MergedMap(vbs)[k].quota.Get(m) else 0) == SumBy(MeterUnder(k, m), vbs)
  {
    if vbs != [] {
      var n := |vbs| - 1;
      MapSums(vbs[..n], k);
      assert vbs[n].MapKey() == k && k in MergedMap(vbs[..n]) ==> MergedMap(vbs)[k] == MergedMap(vbs[..n])[k].AddQuota(vbs[n]);
    }
  }

  /** The map holds under b's key what the bindings of that key add up to. */
  lemma MapAdds(vbs: seq<VolumeBinding>, b: VolumeBinding)
    ensures AddsUp(vbs, b) <==> b.MapKey() in MergedMap(vbs) && MergedMap(vbs)[b.MapKey()] == b
  {
    MapSums(vbs, b.MapKey());
    if AddsUp(vbs, b) {
      EqualByMeter(MergedMap(vbs)[b.MapKey()].quota, b.quota);
    }
    hide MergedMap, SumBy;
  }

  /** What is listed of the map of all bindings is merged. */
  lemma ListedMerged(request: seq<VolumeBinding>, origin: seq<VolumeBinding>, r: seq<VolumeBinding>)
    ensures MergedAs(request, origin, r) <==> ListedBut(MergedMap(origin + request), {}, r)
  {
    hide AddsUp, MergedMap;
    forall b {
      MapAdds(origin + request, b);
    }
  }

  /** MergeVolumeBindings, ranging over its map in any order. */
  method MergeVolumeBindings(vbs1: seq<VolumeBinding>, vbs2: seq<VolumeBinding>) returns (vbs: seq<VolumeBinding>)
    ensures MergedAs(vbs1, vbs2, vbs)
  {
    var all := vbs2 + vbs1;
    var vbMap: map<Key, VolumeBinding> := map[];
    for i := 0 to |all|
      invariant vbMap == MergedMap(all[..i])
    {
      var vb := all[i];
      assert all[..i + 1] == all[..i] + [vb];
      MergedAppend(all[..i], vb);
      if vb.MapKey() in vbMap {
        vbMap := vbMap[vb.MapKey() := vbMap[vb.MapKey()].AddQuota(vb)];
      } else {
        vbMap := vbMap[vb.MapKey() := vb];
      }
    }
    assert all[..|all|] == all;
    vbs := ListBindings(vbMap);
    ListedMerged(vbs1, vbs2, vbs);
  }

  /** The bindings of the map whose size is not negative, in any order of the map. */
  method ListBindings(vbMap: map<Key, VolumeBinding>) returns (vbs: seq<VolumeBinding>)
    requires forall k :: k in vbMap ==> vbMap[k].MapKey() == k
    ensures ListedBut(vbMap, {}, vbs)
  {
    hide ListedBut;
    vbs := [];
    NoneListed(vbMap);
    var rest := vbMap.Keys;
    while rest != {}
      invariant rest <= vbMap.Keys && ListedBut(vbMap, rest, vbs)
      decreases |rest|
    {
      var key :| key in rest;
      ListedNext(vbMap, rest, vbs, key);
      rest := rest - {key};
      if vbMap[key].size >= 0 {
        vbs := vbs + [vbMap[key]];
      }
    }
  }

  /** r lists once each the bindings of m outside rest whose size is not negative. */
  ghost predicate ListedBut(m: map<Key, VolumeBinding>, rest: set<Key>, r: seq<VolumeBinding>) {
    && UniqueKeys(r)
    && forall b :: b in r <==> b.MapKey() in m && b.MapKey() !in rest && m[b.MapKey()] == b && b.size >= 0
  }

  lemma NoneListed(m: map<Key, VolumeBinding>)
    ensures ListedBut(m, m.Keys, [])
  {
  }

  lemma ListedNext(m: map<Key, VolumeBinding>, rest: set<Key>, r: seq<VolumeBinding>, key: Key)
    requires ListedBut(m, rest, r) && key in rest && key in m && m[key].MapKey() == key
    ensures ListedBut(m, rest - {key}, if m[key].size >= 0 then r + [m[key]] else r)
  {
    forall i | 0 <= i < |r| ensures r[i].MapKey() != key {
      assert r[i] in r;
    }
  }

  // ---- A request that needs no scheduling only lowers mounts

  lemma {:induction false} OriginMap(origin: seq<VolumeBinding>)
    requires UniqueKeys(origin)
    ensures forall b :: b in origin ==> b.MapKey() in MergedMap(origin) && MergedMap(origin)[b.MapKey()] == b
  {
    if origin != [] {
      var n := |origin| - 1;
      var last := origin[n];
      assert origin == origin[..n] + [last];
      OriginMap(origin[..n]);
      forall b | b in origin[..n] ensures b.MapKey() != last.MapKey() {
        var i :| 0 <= i < n && origin[i] == b;
      }
      assert !exists b :: b in origin[..n] && b.MapKey() == last.MapKey();
    }
  }

  /** Every binding of the map is one of the origin with no more quota, or asks for none. */
  ghost predicate OnlyLowered(origin: seq<VolumeBinding>, m: map<Key, VolumeBinding>) {
    forall k :: k in m ==>
      (exists o :: o in origin && o.MapKey() == k && m[k].quota.Leq(o.quota)) || m[k].quota.Leq(Quota(0, 0, 0, 0))
  }

  lemma AddedLowers(origin: seq<VolumeBinding>, m: map<Key, VolumeBinding>, b: VolumeBinding)
    requires OnlyLowered(origin, m) && !b.RequireIOPS() && forall k :: k in m ==> m[k].MapKey() == k
    ensures OnlyLowered(origin, m[b.MapKey() := MergedIn(m, b)])
  {
    assert b.quota.Leq(Quota(0, 0, 0, 0));
    if b.MapKey() in m {
      assert m[b.MapKey()].AddQuota(b).quota.Leq(m[b.MapKey()].quota);
    }
  }

  lemma {:induction false} RequestLowers(origin: seq<VolumeBinding>, request: seq<VolumeBinding>)
    requires UniqueKeys(origin) && !NeedSchedule(request)
    ensures OnlyLowered(origin, MergedMap(origin + request))
  {
    if request == [] {
      OriginMap(origin);
      assert origin + [] == origin;
      forall k | k in MergedMap(origin) ensures exists o :: o in origin && o.MapKey() == k && MergedMap(origin)[k].quota.Leq(o.quota) {
        var b :| b in origin && b.MapKey() == k;
      }
    } else {
      var n := |request| - 1;
      var last := request[n];
      assert request == request[..n] + [last] && last in request;
      assert origin + request == origin + request[..n] + [last];
      RequestLowers(origin, request[..n]);
      MergedAppend(origin + request[..n], last);
      AddedLowers(origin, MergedMap(origin + request[..n]), last);
    }
  }

  function DrawnBy(l: Topology, j: nat, m: Meter): VolumeBinding -> int {
    (b: VolumeBinding) => if KindOf(b) == Mount && l.Disk(b.source) == Some(j) then b.quota.Get(m) else 0
  }

  /** What the mounts of a request list draw. */
  lemma {:induction false} MountsDraw(l: Topology, reqs: seq<VolumeBinding>, j: nat, m: Meter)
    ensures QuotaOn(l, MountEntries(Classify(reqs).mount), j, m) == SumBy(DrawnBy(l, j, m), reqs)
  {
    if reqs == [] {
      assert MountEntries([]) == [];
    } else {
      var n := |reqs| - 1;
      var b := reqs[n];
      MountsDraw(l, reqs[..n], j, m);
      var before := OfKind(reqs[..n], Mount);
      if KindOf(b) == Mount {
        assert MountEntries(before + [b]) == MountEntries(before) + [Entry(b, b.source, 0)];
        QuotaAppend(l, MountEntries(before), Entry(b, b.source, 0), j, m);
      }
    }
  }

  /** When every term of s is at most zero or at most that of t with the same key, s sums up to no more than t. */
  lemma {:induction false} SumDominated(f: VolumeBinding -> int, s: seq<VolumeBinding>, t: seq<VolumeBinding>)
    requires UniqueKeys(s) && forall o :: o in t ==> f(o) >= 0
    requires forall b :: b in s ==> f(b) <= 0 || exists o :: o in t && o.MapKey() == b.MapKey() && f(b) <= f(o)
    ensures SumBy(f, s) <= SumBy(f, t)
  {
    if s == [] {
      SumNonNegative(f, t);
    } else {
      var n := |s| - 1;
      var b := s[n];
      assert s == s[..n] + [b];
      if f(b) <= 0 {
        SumDominated(f, s[..n], t);
      } else {
        var o :| o in t && o.MapKey() == b.MapKey() && f(b) <= f(o);
        var i :| 0 <= i < |t| && t[i] == o;
        var rest := t[..i] + t[i + 1..];
        assert t == t[..i] + [o] + t[i + 1..];
        forall c | c in s[..n] ensures f(c) <= 0 || exists o :: o in rest && o.MapKey() == c.MapKey() && f(c) <= f(o) {
          var k :| 0 <= k < n && s[k] == c;
          assert c.MapKey() != b.MapKey();
        }
        SumDominated(f, s[..n], rest);
        SumConcat(f, t[..i] + [o], t[i + 1..]);
        SumConcat(f, t[..i], t[i + 1..]);
        SumAppend(f, t[..i], o);
      }
    }
  }

  lemma UniqueByDestination(reqs: seq<VolumeBinding>)
    requires ValidRequests(reqs)
    ensures UniqueKeys(reqs)
  {
  }

  /** What a request that needs no scheduling leaves of a workload's mounts draws no more, disk by disk, than before. */
  lemma MountsOnlyLowered(l: Topology, request: seq<VolumeBinding>, origin: seq<VolumeBinding>,
      merged: seq<VolumeBinding>, j: nat, m: Meter)
    requires !NeedSchedule(request) && ValidRequests(origin) && ValidRequests(merged) && MergedAs(request, origin, merged)
    ensures QuotaOn(l, MountEntries(Classify(merged).mount), j, m) <= QuotaOn(l, MountEntries(Classify(origin).mount), j, m)
  {
    var f := DrawnBy(l, j, m);
    UniqueByDestination(origin);
    RequestLowers(origin, request);
    ListedMerged(request, origin, merged);
    forall o | o in origin ensures f(o) >= 0 {
      MeterZero(o.quota, m);
    }
    forall b | b in merged ensures f(b) <= 0 || exists o :: o in origin && o.MapKey() == b.MapKey() && f(b) <= f(o) {
      LoweredDraw(l, origin, MergedMap(origin + request), b, j, m);
    }
    SumDominated(f, merged, origin);
    MountsDraw(l, merged, j, m);
    MountsDraw(l, origin, j, m);
  }

  lemma LoweredDraw(l: Topology, origin: seq<VolumeBinding>, map': map<Key, VolumeBinding>, b: VolumeBinding, j: nat, m: Meter)
    requires OnlyLowered(origin, map') && b.MapKey() in map' && map'[b.MapKey()] == b
    ensures var f := DrawnBy(l, j, m); f(b) <= 0 || exists o :: o in origin && o.MapKey() == b.MapKey() && f(b) <= f(o)
  {
    var k := b.MapKey();
    if o :| o in origin && o.MapKey() == k && map'[k].quota.Leq(o.quota) {
      assert b.RequireSchedule() <==> o.RequireSchedule();
      LeqByMeter(b.quota, o.quota);
    } else {
      LeqByMeter(b.quota, Quota(0, 0, 0, 0));
    }
  }

  /** Such a request leaves everything that is scheduled as it is. */
  lemma ScheduledUnchanged(request: seq<VolumeBinding>, origin: seq<VolumeBinding>, merged: seq<VolumeBinding>, b: VolumeBinding)
    requires !NeedSchedule(request) && ValidRequests(origin) && MergedAs(request, origin, merged) && b.RequireSchedule()
    ensures b in merged <==> b in origin
  {
    UniqueByDestination(origin);
    ListedMerged(request, origin, merged);
    OriginMap(origin);
    SameScheduled(origin, request, b.MapKey());
    assert b.MapKey() in MergedMap(origin) ==> exists o :: o in origin && o.MapKey() == b.MapKey();
  }

  lemma {:induction false} SameScheduled(origin: seq<VolumeBinding>, request: seq<VolumeBinding>, k: Key)
    requires !NeedSchedule(request) && forall b: VolumeBinding :: b.MapKey() == k ==> b.RequireSchedule()
    ensures k in MergedMap(origin + request) <==> k in MergedMap(origin)
    ensures k in MergedMap(origin) ==> MergedMap(origin + request)[k] == MergedMap(origin)[k]
  {
    if request == [] {
      assert origin + [] == origin;
    } else {
      var n := |request| - 1;
      var last := request[n];
      assert request == request[..n] + [last] && last in request;
      assert origin + request == origin + request[..n] + [last];
      SameScheduled(origin, request[..n], k);
      MergedAppend(origin + request[..n], last);
    }
  }
}
