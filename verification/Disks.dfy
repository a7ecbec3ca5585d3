/** Disks: longest-mount lookup, and in-place addition and subtraction of per-device quota lists. */
module Disks {
  import opened Quantity
  import opened Options

  datatype Disk = Disk(device: string, mounts: seq<string>, quota: Quota)

  /** The part of a disk that quota accounting never changes. */
  datatype Slot = Slot(device: string, mounts: seq<string>)

  type Layout = seq<Slot>

  function LayoutOf(ds: seq<Disk>): (l: Layout)
    ensures |l| == |ds|
  {
    seq(|ds|, i requires 0 <= i < |ds| => Slot(ds[i].device, ds[i].mounts))
  }

  function QuotasOf(ds: seq<Disk>): (qs: seq<Quota>)
    ensures |qs| == |ds|
  {
    seq(|ds|, i requires 0 <= i < |ds| => ds[i].quota)
  }

  // ---- Lookup by path

  /** strings.TrimSuffix(s, "/") */
  function TrimSlash(s: string): string {
    if s != "" && s[|s| - 1] == '/' then s[..|s| - 1] else s
  }

  /** base is path itself or one of its ancestors; neither has a trailing slash. */
  predicate MountCovers(path: string, base: string) {
    path == base || (base < path && path[|base|] == '/')
  }

  /** Length of the longest base among the mounts that covers path, -1 when none does. */
  function CoverLength(mounts: seq<string>, path: string): (r: int)
    ensures r >= -1
  {
    if mounts == [] then -1 else
      var r := CoverLength(mounts[..|mounts| - 1], path);
      Longer(r, path, TrimSlash(mounts[|mounts| - 1]))
  }

  function Longer(r: int, path: string, base: string): int {
    if MountCovers(path, base) && |base| >= r then |base| else r
  }

  lemma {:induction false} CoverLengthLongest(mounts: seq<string>, path: string)
    ensures var r := CoverLength(mounts, path);
      && (forall m :: m in mounts && MountCovers(path, TrimSlash(m)) ==> |TrimSlash(m)| <= r)
      && (r >= 0 ==> exists m :: m in mounts && MountCovers(path, TrimSlash(m)) && |TrimSlash(m)| == r)
  {
    if mounts != [] {
      assert mounts == mounts[..|mounts| - 1] + [mounts[|mounts| - 1]];
      CoverLengthLongest(mounts[..|mounts| - 1], path);
    }
  }

  /** Whether disk i, covering path by c, replaces the best disk so far. */
  predicate Replaces(l: Layout, path: string, best: Option<nat>, c: int)
    requires best.Some? ==> best.value < |l|
  {
    c >= 0 && (best.None? || c >= CoverLength(l[best.value].mounts, path))
  }

  /** The last disk among the first n that owns a longest covering mount of the trimmed path. */
  function FindTrimmed(l: Layout, path: string, n: nat): (r: Option<nat>)
    requires n <= |l|
    ensures r.Some? ==> r.value < n
  {
    if n == 0 then None else
      var r := FindTrimmed(l, path, n - 1);
      if Replaces(l, path, r, CoverLength(l[n - 1].mounts, path)) then Some(n - 1) else r
  }

  /** The disk that covers a path. */
  function FindDisk(l: Layout, path: string): (r: Option<nat>)
    ensures r.Some? ==> r.value < |l|
  {
    FindTrimmed(l, TrimSlash(path), |l|)
  }

  predicate NoBetter(c: int, best: int, later: bool) {
    c <= best && (later ==> c < best)
  }

  /** Disk r covers path at least as well as any of the first n, and better than those after it. */
  ghost predicate BestOf(l: Layout, path: string, n: nat, r: Option<nat>)
    requires n <= |l|
  {
    match r
    case None => forall i :: 0 <= i < n ==> CoverLength(l[i].mounts, path) == -1
    case Some(r) =>
      && r < n && CoverLength(l[r].mounts, path) >= 0
      && forall i :: 0 <= i < n ==>
           NoBetter(CoverLength(l[i].mounts, path), CoverLength(l[r].mounts, path), i > r)
  }

  lemma {:induction false} FindTrimmedLongest(l: Layout, path: string, n: nat)
    requires n <= |l|
    ensures BestOf(l, path, n, FindTrimmed(l, path, n))
  {
    if n > 0 {
      FindTrimmedLongest(l, path, n - 1);
      BestOfStep(l, path, n, FindTrimmed(l, path, n - 1));
    }
  }

  lemma BestOfStep(l: Layout, path: string, n: nat, r: Option<nat>)
    requires 0 < n <= |l| && BestOf(l, path, n - 1, r)
    ensures BestOf(l, path, n, if Replaces(l, path, r, CoverLength(l[n - 1].mounts, path)) then Some(n - 1) else r)
  {
    hide CoverLength;
  }

  /** Disk r owns mount m, m covers path, and no disk covers path with a longer mount; ties go to the last disk. */
  ghost predicate OwnsLongestMount(l: Layout, path: string, r: nat, m: string)
    requires r < |l|
  {
    && m in l[r].mounts && MountCovers(path, TrimSlash(m))
    && forall i, k :: 0 <= i < |l| && k in l[i].mounts && MountCovers(path, TrimSlash(k)) ==>
         |TrimSlash(k)| <= |TrimSlash(m)| && (i > r ==> |TrimSlash(k)| < |TrimSlash(m)|)
  }

  /** The lookup finds the owner of a longest covering mount, and nothing exactly when no mount covers the path. */
  lemma FindDiskLongest(l: Layout, path: string)
    ensures var p := TrimSlash(path); match FindDisk(l, path)
      case None => forall i, m :: 0 <= i < |l| && m in l[i].mounts ==> !MountCovers(p, TrimSlash(m))
      case Some(r) => exists m :: OwnsLongestMount(l, p, r, m)
  {
    var p := TrimSlash(path);
    FindTrimmedLongest(l, p, |l|);
    forall i, k | 0 <= i < |l| && k in l[i].mounts && MountCovers(p, TrimSlash(k))
      ensures |TrimSlash(k)| <= CoverLength(l[i].mounts, p)
    {
      CoverLengthLongest(l[i].mounts, p);
    }
    match FindDisk(l, path) {
      case None =>
      case Some(r) =>
        CoverLengthLongest(l[r].mounts, p);
        var m :| m in l[r].mounts && MountCovers(p, TrimSlash(m)) && |TrimSlash(m)| == CoverLength(l[r].mounts, p);
        assert OwnsLongestMount(l, p, r, m);
    }
  }

  function SlashCount(s: string): nat {
    if s == "" then 0 else SlashCount(s[..|s| - 1]) + if s[|s| - 1] == '/' then 1 else 0
  }

  /** Two covering mounts of one path compare by depth as they compare by length. */
  lemma DepthFollowsLength(path: string, b: string, c: string)
    requires MountCovers(path, b) && MountCovers(path, c)
    ensures |b| < |c| <==> SlashCount(b) < SlashCount(c)
    ensures |b| == |c| ==> b == c
  {
    if |b| < |c| {
      SlashCountGrows(path, |b|, |c|);
    } else if |c| < |b| {
      SlashCountGrows(path, |c|, |b|);
    }
    assert b == path[..|b|] && c == path[..|c|];
  }

  lemma {:induction false} SlashCountGrows(path: string, i: nat, j: nat)
    requires i < j <= |path| && path[i] == '/'
    ensures SlashCount(path[..i]) < SlashCount(path[..j])
    decreases j
  {
    assert path[..j][..j - 1] == path[..j - 1];
    if i < j - 1 {
      SlashCountGrows(path, i, j - 1);
    }
  }

  /** Disks.GetDiskByPath: one pass over all mounts, comparing by slash count. */
  method GetDiskByPath(ds: seq<Disk>, fullPath: string) returns (best: Option<nat>)
    ensures best == FindDisk(LayoutOf(ds), fullPath)
  {
    hide CoverLength, MountCovers, TrimSlash, SlashCount;
    best := None;
    var bestDepth := -1;
    var path := TrimSlash(fullPath);
    ghost var bestBase := "";
    ghost var l := LayoutOf(ds);
    for i := 0 to |ds|
      invariant best == FindTrimmed(l, path, i)
      invariant if best.None? then bestDepth == -1 else Holds(l, path, best.value, bestBase, bestDepth)
    {
      ghost var before := best;
      var mounts := ds[i].mounts;
      CoverNone(path);
      assert mounts[..0] == [];
      for k := 0 to |mounts|
        invariant Scanned(l, path, before, i, CoverLength(mounts[..k], path), best, bestBase, bestDepth)
      {
        var base := TrimSlash(mounts[k]);
        var depth := SlashCount(base) + 1;
        CoverNext(mounts, k, path);
        ScanStep(l, path, before, i, CoverLength(mounts[..k], path), best, bestBase, bestDepth, base);
        hide *;
        if depth >= bestDepth && MountCovers(path, base) {
          best, bestDepth := Some(i), depth;
          bestBase := base;
        }
      }
      assert mounts[..|mounts|] == mounts;
    }
  }

  /** The scan state inside disk i, whose mounts so far cover path by c. */
  ghost predicate Scanned(l: Layout, path: string, before: Option<nat>, i: nat, c: int, best: Option<nat>, base: string, depth: int)
    requires i < |l| && (before.Some? ==> before.value < i)
  {
    && (best.None? ==> depth == -1)
    && (best.Some? ==> MountCovers(path, base) && depth == SlashCount(base) + 1)
    && if Replaces(l, path, before, c) then best == Some(i) && |base| == c
       else best == before && (best.Some? ==> |base| == CoverLength(l[best.value].mounts, path))
  }

  lemma CoverNone(path: string)
    ensures CoverLength([], path) == -1
  {
  }

  lemma CoverNext(mounts: seq<string>, k: nat, path: string)
    requires k < |mounts|
    ensures CoverLength(mounts[..k + 1], path) == Longer(CoverLength(mounts[..k], path), path, TrimSlash(mounts[k]))
  {
    assert mounts[..k + 1][..k] == mounts[..k];
  }

  lemma ScanStep(l: Layout, path: string, before: Option<nat>, i: nat, c: int, best: Option<nat>, base: string, depth: int, next: string)
    requires i < |l| && (before.Some? ==> before.value < i) && c >= -1
    requires Scanned(l, path, before, i, c, best, base, depth)
    ensures if SlashCount(next) + 1 >= depth && MountCovers(path, next)
      then Scanned(l, path, before, i, Longer(c, path, next), Some(i), next, SlashCount(next) + 1)
      else Scanned(l, path, before, i, Longer(c, path, next), best, base, depth)
  {
    if best.Some? && MountCovers(path, next) {
      DepthFollowsLength(path, next, base);
    }
    hide CoverLength, MountCovers, SlashCount;
  }

  /** bestBase is a longest covering base of disk r, and depth its depth. */
  ghost predicate Holds(l: Layout, path: string, r: nat, base: string, depth: int) {
    r < |l| && MountCovers(path, base) && |base| == CoverLength(l[r].mounts, path) && depth == SlashCount(base) + 1
  }

  // ---- Quota lists

  ghost predicate HasDevice(ds: seq<Disk>, device: string) {
    exists i :: 0 <= i < |ds| && ds[i].device == device
  }

  ghost predicate UniqueDevices(ds: seq<Disk>) {
    forall i, j :: 0 <= i < j < |ds| ==> ds[i].device != ds[j].device
  }

  /** Disks.GetDiskByDevice, as the index of the first entry of a device. */
  method GetDiskByDevice(ds: seq<Disk>, device: string) returns (r: Option<nat>)
    ensures r == IndexOf(ds, device)
  {
    for i := 0 to |ds|
      invariant IndexOf(ds, device) == if IndexOf(ds[i..], device).None? then None else Some(IndexOf(ds[i..], device).value + i)
    {
      if ds[i].device == device {
        return Some(i);
      }
      assert ds[i..][1..] == ds[i + 1..];
    }
    return None;
  }

  function IndexOf(ds: seq<Disk>, device: string): (r: Option<nat>)
    ensures match r
      case Some(i) => i < |ds| && ds[i].device == device && forall k :: 0 <= k < i ==> ds[k].device != device
      case None => !HasDevice(ds, device)
  {
    if ds == [] then None
    else if ds[0].device == device then Some(0)
    else
      var r := IndexOf(ds[1..], device);
      assert r.Some? ==> ds[r.value + 1] == ds[1..][r.value];
      assert forall k :: 0 < k < |ds| ==> ds[k] == ds[1..][k - 1];
      if r.None? then None else Some(r.value + 1)
  }

  /** One entry added to the first entry of its device; nothing when the device is absent. */
  function Bump(ds: seq<Disk>, x: Disk): (r: seq<Disk>)
    ensures |r| == |ds| && forall i :: 0 <= i < |ds| ==> r[i].device == ds[i].device
  {
    match IndexOf(ds, x.device)
    case None => ds
    case Some(i) => ds[i := Disk(x.device, if x.mounts != [] then x.mounts else ds[i].mounts, ds[i].quota.Plus(x.quota))]
  }

  function BumpAll(ds: seq<Disk>, xs: seq<Disk>): (r: seq<Disk>)
    ensures |r| == |ds| && forall i :: 0 <= i < |ds| ==> r[i].device == ds[i].device
  {
    if xs == [] then ds else Bump(BumpAll(ds, xs[..|xs| - 1]), xs[|xs| - 1])
  }

  /** The entries of xs whose device ds does not have. */
  function Missing(ds: seq<Disk>, xs: seq<Disk>): (r: seq<Disk>) {
    if xs == [] then []
    else if IndexOf(ds, xs[|xs| - 1].device).Some? then Missing(ds, xs[..|xs| - 1])
    else Missing(ds, xs[..|xs| - 1]) + [xs[|xs| - 1]]
  }

  /** Disks.Add as a value. */
  function Added(ds: seq<Disk>, xs: seq<Disk>): seq<Disk> {
    BumpAll(ds, xs) + Missing(ds, xs)
  }

  function Negative(q: Quota): Quota {
    Quota(-q.readIOPS, -q.writeIOPS, -q.readBPS, -q.writeBPS)
  }

  function Negate(xs: seq<Disk>): (r: seq<Disk>)
    ensures |r| == |xs|
  {
    seq(|xs|, i requires 0 <= i < |xs| => xs[i].(quota := Negative(xs[i].quota)))
  }

  /** Disks.Add */
  method Add(ds: seq<Disk>, xs: seq<Disk>) returns (r: seq<Disk>)
    ensures r == Added(ds, xs)
  {
    r := ds;
    var toAppend := [];
    for i := 0 to |xs|
      invariant r == BumpAll(ds, xs[..i])
      invariant toAppend == Missing(ds, xs[..i])
    {
      assert xs[..i + 1][..i] == xs[..i];
      var x := xs[i];
      SameIndex(ds, r, x.device);
      var found := GetDiskByDevice(r, x.device);
      if found.Some? {
        var disk := r[found.value];
        disk := disk.(quota := disk.quota.Plus(x.quota));
        if |x.mounts| > 0 {
          disk := disk.(mounts := x.mounts);
        }
        r := r[found.value := disk];
      } else {
        toAppend := toAppend + [x];
      }
    }
    assert xs[..|xs|] == xs;
    r := r + toAppend;
  }

  lemma SameIndex(ds: seq<Disk>, es: seq<Disk>, device: string)
    requires |ds| == |es| && forall i :: 0 <= i < |ds| ==> ds[i].device == es[i].device
    ensures IndexOf(ds, device) == IndexOf(es, device)
  {
    var r, q := IndexOf(ds, device), IndexOf(es, device);
    if r.Some? {
      assert es[r.value].device == device;
    }
    if q.Some? {
      assert ds[q.value].device == device;
    }
  }

  /** Disks.Sub: as adding the negated entries. */
  method Sub(ds: seq<Disk>, xs: seq<Disk>) returns (r: seq<Disk>)
    ensures r == Added(ds, Negate(xs))
  {
    r := ds;
    var toAppend := [];
    ghost var ns := Negate(xs);
    hide IndexOf;
    for i := 0 to |xs|
      invariant r == BumpAll(ds, ns[..i])
      invariant toAppend == Missing(ds, ns[..i])
    {
      assert ns[..i + 1][..i] == ns[..i];
      var x := xs[i];
      SameIndex(ds, r, x.device);
      var found := GetDiskByDevice(r, x.device);
      if found.Some? {
        var disk := r[found.value];
        disk := disk.(quota := disk.quota.Minus(x.quota));
        if |x.mounts| > 0 {
          disk := disk.(mounts := x.mounts);
        }
        r := r[found.value := disk];
      } else {
        toAppend := toAppend + [Disk(x.device, x.mounts, Negative(x.quota))];
      }
    }
    assert ns[..|ns|] == ns;
    r := r + toAppend;
  }

  /** Subtracting one entry with its disk's own mounts lowers that disk's quota and nothing else. */
  lemma SubbedOne(ds: seq<Disk>, j: nat, x: Disk)
    requires UniqueDevices(ds) && j < |ds| && x.device == ds[j].device && x.mounts == ds[j].mounts
    ensures Added(ds, Negate([x])) == ds[j := ds[j].(quota := ds[j].quota.Minus(x.quota))]
  {
    var ns := Negate([x]);
    assert IndexOf(ds, x.device) == Some(j);
    assert |ns| == 1 && ns[..0] == [];
    assert BumpAll(ds, ns[..0]) == ds && Missing(ds, ns[..0]) == [];
    assert ds[j].quota.Plus(ns[0].quota) == ds[j].quota.Minus(x.quota);
    assert Bump(ds, ns[0])[j] == ds[j].(quota := ds[j].quota.Minus(x.quota));
  }

  /** All that a list holds against one device, meter by meter. */
  function TotalQuota(ds: seq<Disk>, device: string, m: Meter): int {
    if ds == [] then 0 else
      TotalQuota(ds[..|ds| - 1], device, m) + if ds[|ds| - 1].device == device then ds[|ds| - 1].quota.Get(m) else 0
  }

  lemma {:induction false} TotalQuotaConcat(ds: seq<Disk>, es: seq<Disk>, device: string, m: Meter)
    ensures TotalQuota(ds + es, device, m) == TotalQuota(ds, device, m) + TotalQuota(es, device, m)
  {
    if es == [] {
      assert ds + es == ds;
    } else {
      assert (ds + es)[..|ds + es| - 1] == ds + es[..|es| - 1];
      TotalQuotaConcat(ds, es[..|es| - 1], device, m);
    }
  }

  lemma {:induction false} TotalQuotaUpdate(ds: seq<Disk>, i: nat, x: Disk, device: string, m: Meter)
    requires i < |ds| && x.device == ds[i].device
    ensures TotalQuota(ds[i := x], device, m)
         == TotalQuota(ds, device, m) + if x.device == device then x.quota.Get(m) - ds[i].quota.Get(m) else 0
  {
    if i < |ds| - 1 {
      assert ds[i := x][..|ds| - 1] == ds[..|ds| - 1][i := x];
      TotalQuotaUpdate(ds[..|ds| - 1], i, x, device, m);
    } else {
      assert ds[i := x][..|ds| - 1] == ds[..|ds| - 1];
    }
  }

  lemma {:induction false} TotalQuotaAbsent(ds: seq<Disk>, device: string, m: Meter)
    requires forall i :: 0 <= i < |ds| ==> ds[i].device != device
    ensures TotalQuota(ds, device, m) == 0
  {
    if ds != [] {
      TotalQuotaAbsent(ds[..|ds| - 1], device, m);
    }
  }

  /** A device listed once holds its one entry. */
  lemma {:induction false} TotalQuotaUnique(ds: seq<Disk>, i: nat, m: Meter)
    requires UniqueDevices(ds) && i < |ds|
    ensures TotalQuota(ds, ds[i].device, m) == ds[i].quota.Get(m)
  {
    var n := |ds| - 1;
    if i == n {
      TotalQuotaAbsent(ds[..n], ds[i].device, m);
    } else {
      TotalQuotaUnique(ds[..n], i, m);
    }
  }

  /** Adding two quota lists adds what they hold against every device. */
  lemma AddedTotal(ds: seq<Disk>, xs: seq<Disk>, device: string, m: Meter)
    ensures TotalQuota(Added(ds, xs), device, m) == TotalQuota(ds, device, m) + TotalQuota(xs, device, m)
  {
    TotalQuotaConcat(BumpAll(ds, xs), Missing(ds, xs), device, m);
    AddedParts(ds, xs, device, m);
  }

  /** Held by the bumped entries and the missing ones together. */
  lemma {:induction false} AddedParts(ds: seq<Disk>, xs: seq<Disk>, device: string, m: Meter)
    ensures TotalQuota(BumpAll(ds, xs), device, m) + TotalQuota(Missing(ds, xs), device, m)
         == TotalQuota(ds, device, m) + TotalQuota(xs, device, m)
  {
    if xs != [] {
      var n := |xs| - 1;
      var x := xs[n];
      var bumped := BumpAll(ds, xs[..n]);
      AddedParts(ds, xs[..n], device, m);
      SameIndex(ds, bumped, x.device);
      BumpTotal(bumped, x, device, m);
      var missing := Missing(ds, xs[..n]);
      assert (missing + [x])[..|missing|] == missing;
    }
  }

  lemma BumpTotal(ds: seq<Disk>, x: Disk, device: string, m: Meter)
    ensures TotalQuota(Bump(ds, x), device, m) == TotalQuota(ds, device, m)
      + if IndexOf(ds, x.device).Some? && x.device == device then x.quota.Get(m) else 0
  {
    match IndexOf(ds, x.device)
    case Some(i) => TotalQuotaUpdate(ds, i, Bump(ds, x)[i], device, m);
    case None =>
  }

  /** Subtracting a quota list takes away what it holds against every device. */
  lemma SubbedTotal(ds: seq<Disk>, xs: seq<Disk>, device: string, m: Meter)
    ensures TotalQuota(Added(ds, Negate(xs)), device, m) == TotalQuota(ds, device, m) - TotalQuota(xs, device, m)
  {
    AddedTotal(ds, Negate(xs), device, m);
    NegateTotal(xs, device, m);
  }

  lemma {:induction false} NegateTotal(xs: seq<Disk>, device: string, m: Meter)
    ensures TotalQuota(Negate(xs), device, m) == -TotalQuota(xs, device, m)
  {
    if xs != [] {
      assert Negate(xs)[..|xs| - 1] == Negate(xs[..|xs| - 1]);
      NegateTotal(xs[..|xs| - 1], device, m);
    }
  }

  lemma {:induction false} MissingDevices(ds: seq<Disk>, xs: seq<Disk>)
    ensures forall m :: m in Missing(ds, xs) ==> m in xs && !HasDevice(ds, m.device)
    ensures UniqueDevices(xs) ==> UniqueDevices(Missing(ds, xs))
  {
    if xs != [] {
      MissingDevices(ds, xs[..|xs| - 1]);
      assert xs == xs[..|xs| - 1] + [xs[|xs| - 1]];
    }
  }

  /** Adding a list without repeated devices keeps devices unique. */
  lemma AddedUnique(ds: seq<Disk>, xs: seq<Disk>)
    requires UniqueDevices(ds) && UniqueDevices(xs)
    ensures UniqueDevices(Added(ds, xs))
  {
    MissingDevices(ds, xs);
    var b, m := BumpAll(ds, xs), Missing(ds, xs);
    forall i, j | 0 <= i < |b| && 0 <= j < |m| ensures b[i].device != m[j].device {
      assert m[j] in m;
    }
  }

  // ---- Topology

  ghost predicate UniqueSlots(l: Layout) {
    forall i, j :: 0 <= i < j < |l| ==> l[i].device != l[j].device
  }

  lemma SlotsUnique(ds: seq<Disk>)
    ensures UniqueSlots(LayoutOf(ds)) <==> UniqueDevices(ds)
  {
    var l := LayoutOf(ds);
    if UniqueSlots(l) {
      forall i, j | 0 <= i < j < |ds| ensures ds[i].device != ds[j].device {
        assert l[i].device != l[j].device;
      }
    }
  }

  /** The disks of a host and the lookup from a path to the index of its disk. */
  datatype Topology = Topology(slots: Layout, find: string -> Option<nat>) {

    function Disk(path: string): (r: Option<nat>)
      ensures r.Some? ==> r.value < |slots|
    {
      var r := find(path);
      if r.Some? && r.value < |slots| then r else None
    }
  }

  function TopologyAt(l: Layout): Topology {
    Topology(l, (path: string) => FindDisk(l, path))
  }

  /** The topology of a disk list looks paths up as GetDiskByPath does. */
  lemma TopologyFinds(l: Layout, path: string)
    ensures TopologyAt(l).Disk(path) == FindDisk(l, path)
  {
  }
}
