/** Merging volume plans by destination. */
module VolumePlans {
  import opened Options
  import opened Bindings
  import opened Volumes
  import opened Sums
  import opened Charges

  ghost predicate DistinctDestinations(p: VolumePlan) {
    forall i, j :: 0 <= i < j < |p| ==> p[i].binding.destination != p[j].binding.destination
  }

  function SizeAt(destination: string): Entry -> int {
    (e: Entry) => if e.binding.destination == destination then e.size else 0
  }

  /** The bytes that a plan gives to one destination. */
  function SizeFor(p: VolumePlan, destination: string): int {
    SumBy(SizeAt(destination), p)
  }

  /** VolumePlan.GetVolumes: an entry with the binding's destination. */
  method GetVolumes(p: VolumePlan, b: VolumeBinding) returns (r: Option<nat>)
    ensures r.Some? ==> r.value < |p| && p[r.value].binding.destination == b.destination
    ensures r.Some? ==> forall i :: 0 <= i < r.value ==> p[i].binding.destination != b.destination
    ensures r.None? ==> forall i :: 0 <= i < |p| ==> p[i].binding.destination != b.destination
  {
    for i := 0 to |p|
      invariant forall k :: 0 <= k < i ==> p[k].binding.destination != b.destination
    {
      if p[i].binding.destination == b.destination {
        return Some(i);
      }
    }
    return None;
  }

  /** p and q have no destination in common, and none twice. */
  ghost predicate Unrelated(p: VolumePlan, q: VolumePlan) {
    DistinctDestinations(p + q)
  }

  /** One entry merged into a plan: it takes the place of the first entry of its destination, with sizes and quotas added. */
  function MergeEntry(p: VolumePlan, e: Entry): VolumePlan {
    match IndexFor(p, e.binding.destination)
    case None => p + [e]
    case Some(k) => p[..k] + p[k + 1..] + [Entry(e.binding.AddQuota(p[k].binding), e.device, e.size + p[k].size)]
  }

  /** The first entry of a destination. */
  function IndexFor(p: VolumePlan, destination: string): (r: Option<nat>)
    ensures r.Some? ==> r.value < |p| && p[r.value].binding.destination == destination
    ensures r.Some? ==> forall i :: 0 <= i < r.value ==> p[i].binding.destination != destination
    ensures r.None? ==> forall i :: 0 <= i < |p| ==> p[i].binding.destination != destination
  {
    if p == [] then None
    else if p[0].binding.destination == destination then Some(0)
    else
      var r := IndexFor(p[1..], destination);
      assert forall i :: 0 < i < |p| ==> p[i] == p[1..][i - 1];
      if r.None? then None else Some(r.value + 1)
  }

  function Merged(p: VolumePlan, p2: VolumePlan): VolumePlan {
    if p2 == [] then p else MergeEntry(Merged(p, p2[..|p2| - 1]), p2[|p2| - 1])
  }

  /** VolumePlan.Merge, for one order in which the maps are ranged over. */
  method Merge(p: VolumePlan, p2: VolumePlan) returns (r: VolumePlan)
    ensures r == Merged(p, p2)
    ensures forall d :: SizeFor(r, d) == SizeFor(p, d) + SizeFor(p2, d)
    ensures Unrelated(p, p2) ==> r == p + p2
  {
    r := p;
    assert p2[..0] == [];
    for i := 0 to |p2|
      invariant r == Merged(p, p2[..i])
    {
      var e := p2[i];
      assert p2[..i + 1][..i] == p2[..i];
      var found := GetVolumes(r, e.binding);
      if found.Some? {
        var k := found.value;
        var oldVM := r[k];
        r := r[..k] + r[k + 1..] + [Entry(e.binding.AddQuota(oldVM.binding), e.device, e.size + oldVM.size)];
      } else {
        r := r + [e];
      }
    }
    assert p2[..|p2|] == p2;
    MergedSizes(p, p2);
    if Unrelated(p, p2) {
      MergedUnrelated(p, p2);
    }
  }

  /** Merging adds the sizes of every destination. */
  lemma {:induction false} MergedSizes(p: VolumePlan, p2: VolumePlan)
    ensures forall d :: SizeFor(Merged(p, p2), d) == SizeFor(p, d) + SizeFor(p2, d)
  {
    if p2 != [] {
      var n := |p2| - 1;
      var r := Merged(p, p2[..n]);
      assert p2 == p2[..n] + [p2[n]];
      MergedSizes(p, p2[..n]);
      MergeSizes(r, Merged(p, p2), p2[..n], p2[n], IndexFor(r, p2[n].binding.destination));
    }
  }

  /** Plans without a common destination are joined as they are. */
  lemma {:induction false} MergedUnrelated(p: VolumePlan, p2: VolumePlan)
    requires Unrelated(p, p2)
    ensures Merged(p, p2) == p + p2
  {
    if p2 != [] {
      var n := |p2| - 1;
      assert p2 == p2[..n] + [p2[n]] && p + p2 == p + p2[..n] + [p2[n]];
      FrontUnrelated(p, p2[..n], p2[n]);
      MergedUnrelated(p, p2[..n]);
    }
  }

  lemma FrontUnrelated(p: VolumePlan, q: VolumePlan, e: Entry)
    requires DistinctDestinations(p + q + [e])
    ensures Unrelated(p, q) && IndexFor(p + q, e.binding.destination) == None
  {
    var all := p + q + [e];
    forall i | 0 <= i < |p + q| ensures (p + q)[i].binding.destination != e.binding.destination {
      assert all[i] == (p + q)[i] && all[|p + q|] == e;
    }
    forall i, j | 0 <= i < j < |p + q| ensures (p + q)[i].binding.destination != (p + q)[j].binding.destination {
      assert all[i] == (p + q)[i] && all[j] == (p + q)[j];
    }
  }

  /** With destinations listed once, an entry merged in replaces the one of its destination: its device, and all of both quotas and sizes. */
  lemma MergedEntry(p: VolumePlan, e: Entry, k: nat)
    requires DistinctDestinations(p) && k < |p| && p[k].binding.destination == e.binding.destination
    ensures var merged := Entry(e.binding.AddQuota(p[k].binding), e.device, e.size + p[k].size);
      && merged in MergeEntry(p, e) && DistinctDestinations(MergeEntry(p, e))
      && forall x: Entry :: x.binding.destination != e.binding.destination ==> (x in MergeEntry(p, e) <==> x in p)
  {
    var r := MergeEntry(p, e);
    var at := IndexFor(p, e.binding.destination).value;
    assert at == k;
    var rest := p[..k] + p[k + 1..];
    assert p == p[..k] + [p[k]] + p[k + 1..];
    forall i | 0 <= i < |rest| ensures rest[i].binding.destination != e.binding.destination {
      assert rest[i] == if i < k then p[i] else p[i + 1];
    }
    forall i, j | 0 <= i < j < |rest| ensures rest[i].binding.destination != rest[j].binding.destination {
      assert rest[i] == (if i < k then p[i] else p[i + 1]) && rest[j] == if j < k then p[j] else p[j + 1];
    }
  }

  /** One merged entry adds its size to its destination, whether or not there was an entry for it. */
  lemma MergeSizes(r: VolumePlan, r': VolumePlan, done: VolumePlan, e: Entry, at: Option<nat>)
    requires match at
      case None => r' == r + [e]
      case Some(k) =>
        && k < |r| && r[k].binding.destination == e.binding.destination
        && r' == r[..k] + r[k + 1..] + [Entry(e.binding.AddQuota(r[k].binding), e.device, e.size + r[k].size)]
    ensures forall d :: SizeFor(r', d) - SizeFor(r, d) == SizeFor(done + [e], d) - SizeFor(done, d)
  {
    forall d ensures SizeFor(r', d) - SizeFor(r, d) == SizeFor(done + [e], d) - SizeFor(done, d) {
      var f := SizeAt(d);
      SumAppend(f, done, e);
      match at
      case None => SumAppend(f, r, e);
      case Some(k) =>
        var rest := r[..k] + r[k + 1..];
        SumAppend(f, rest, r'[|rest|]);
        SumWithout(f, r, k);
    }
  }

  lemma SumWithout(f: Entry -> int, r: VolumePlan, k: nat)
    requires k < |r|
    ensures SumBy(f, r[..k] + r[k + 1..]) == SumBy(f, r) - f(r[k])
  {
    SumConcat(f, r[..k], r[k + 1..]);
    SumAppend(f, r[..k], r[k]);
    SumConcat(f, r[..k] + [r[k]], r[k + 1..]);
    assert r == r[..k] + [r[k]] + r[k + 1..];
  }

  // ---- The classes of valid requests keep destinations apart

  ghost predicate Unlike(reqs: seq<VolumeBinding>) {
    forall i, j :: 0 <= i < j < |reqs| ==> reqs[i].destination != reqs[j].destination
  }

  lemma UnlikePermutation(s: seq<VolumeBinding>, t: seq<VolumeBinding>)
    requires Unlike(s) && multiset(s) == multiset(t)
    ensures Unlike(t)
  {
    forall i, j | 0 <= i < j < |t| ensures t[i].destination != t[j].destination {
      assert t[i] in multiset(s) && t[j] in multiset(s);
      var a :| 0 <= a < |s| && s[a] == t[i];
      var b :| 0 <= b < |s| && s[b] == t[j];
      if t[i].destination == t[j].destination {
        assert a == b;
        CountTwice(t, i, j);
        OnlyOnce(s, a);
      }
    }
  }

  lemma OnlyOnce(s: seq<VolumeBinding>, a: nat)
    requires Unlike(s) && a < |s|
    ensures multiset(s)[s[a]] == 1
  {
    assert s == s[..a] + [s[a]] + s[a + 1..];
    assert s[a] !in s[..a] && s[a] !in s[a + 1..];
  }

  /** Normal, monopoly and unlimited requests of one request list have different destinations. */
  lemma ClassesUnlike(reqs: seq<VolumeBinding>)
    requires ValidRequests(reqs)
    ensures var c := Classify(reqs); Unlike(c.normal + c.mono + c.unlimited)
  {
    var c := Classify(reqs);
    ClassifyPartitions(reqs);
    var all := c.normal + c.mono + c.unlimited + c.mount;
    assert multiset(all) == multiset(reqs);
    UnlikePermutation(reqs, all);
    var some := c.normal + c.mono + c.unlimited;
    forall i, j | 0 <= i < j < |some| ensures some[i].destination != some[j].destination {
      assert some[i] == all[i] && some[j] == all[j];
    }
  }

  lemma PlanUnlike(p: VolumePlan, reqs: seq<VolumeBinding>)
    requires |p| == |reqs| && Unlike(reqs) && forall i :: 0 <= i < |p| ==> p[i].binding == reqs[i]
    ensures DistinctDestinations(p)
  {
  }
}
