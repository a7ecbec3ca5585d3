/** The binary min-heap of volumes, in place on the first n slots of a backing array. */
module VolumeHeap {
  import opened Volumes

  /** Slot k is at least its parent. */
  ghost predicate Edge(s: seq<Volume>, k: int)
    requires 0 < k < |s|
  {
    Leq(s[(k - 1) / 2], s[k])
  }

  ghost predicate IsHeap(s: seq<Volume>) {
    forall k {:trigger Edge(s, k)} :: 0 < k < |s| ==> Edge(s, k)
  }

  /** Heap order below slots lo and up, except on the edges leaving slot i, whose children are at least its parent. */
  ghost predicate HoleAt(s: seq<Volume>, lo: int, i: int) {
    && (forall k {:trigger Edge(s, k)} :: 0 < k < |s| && (k - 1) / 2 >= lo && (k - 1) / 2 != i ==> Edge(s, k))
    && (0 < i < |s| && (i - 1) / 2 >= lo ==> Bridged(s, i))
  }

  ghost predicate Bridged(s: seq<Volume>, i: int)
    requires 0 < i < |s|
  {
    forall k :: 0 < k < |s| && (k - 1) / 2 == i ==> Leq(s[(i - 1) / 2], s[k])
  }

  ghost predicate HeapFrom(s: seq<Volume>, lo: int) {
    forall k {:trigger Edge(s, k)} :: 0 < k < |s| && (k - 1) / 2 >= lo ==> Edge(s, k)
  }

  ghost function Swapped(s: seq<Volume>, i: int, j: int): (t: seq<Volume>)
    requires 0 <= i < |s| && 0 <= j < |s|
    ensures |t| == |s| && multiset(t) == multiset(s)
  {
    s[i := s[j]][j := s[i]]
  }

  /** volumeHeap.Swap */
  method Swap(a: array<Volume>, n: int, i: int, j: int)
    requires 0 <= i < n <= a.Length && 0 <= j < n
    modifies a
    ensures a[..n] == Swapped(old(a[..n]), i, j)
    ensures forall k :: n <= k < a.Length ==> a[k] == old(a[k])
  {
    a[i], a[j] := a[j], a[i];
  }

  /** The hole moves to the lesser child. */
  lemma DownStep(s: seq<Volume>, lo: int, i: int, j: int)
    requires 0 <= lo <= i < j < |s| && (j - 1) / 2 == i && HoleAt(s, lo, i)
    requires forall k :: 0 < k < |s| && (k - 1) / 2 == i ==> Leq(s[j], s[k])
    requires Leq(s[j], s[i])
    ensures HoleAt(Swapped(s, i, j), lo, j)
  {
    var t := Swapped(s, i, j);
    forall k | 0 < k < |t| && (k - 1) / 2 >= lo && (k - 1) / 2 != j ensures Edge(t, k) {
      if k != i && (k - 1) / 2 != i {
        assert Edge(s, k);
      }
    }
    forall k | 0 < k < |t| && (k - 1) / 2 == j ensures Leq(t[i], t[k]) {
      assert Edge(s, k);
    }
  }

  lemma DownStop(s: seq<Volume>, lo: int, i: int)
    requires HoleAt(s, lo, i)
    requires forall k :: 0 < k < |s| && (k - 1) / 2 == i ==> Leq(s[i], s[k])
    ensures HeapFrom(s, lo)
  {
    forall k | 0 < k < |s| && (k - 1) / 2 >= lo ensures Edge(s, k) {
      if (k - 1) / 2 == i {
        assert Leq(s[i], s[k]);
      }
    }
  }

  /** Sifts slot start down; edges above slot lo are not looked at. */
  method Down(a: array<Volume>, start: int, n: int, ghost lo: int)
    requires 0 <= n <= a.Length && 0 <= lo <= start
    requires HoleAt(a[..n], lo, start)
    modifies a
    ensures HeapFrom(a[..n], lo)
    ensures multiset(a[..n]) == old(multiset(a[..n]))
    ensures forall k :: n <= k < a.Length ==> a[k] == old(a[k])
  {
    hide HoleAt, HeapFrom, Leq;
    var i := start;
    while true
      invariant lo <= i
      invariant HoleAt(a[..n], lo, i)
      invariant multiset(a[..n]) == old(multiset(a[..n]))
      invariant forall k :: n <= k < a.Length ==> a[k] == old(a[k])
      decreases n - i
    {
      ghost var s := a[..n];
      var left := 2 * i + 1;
      if left >= n {
        DownStop(s, lo, i);
        break;
      }
      var j := left;
      if left + 1 < n && Less(a[left + 1], a[left]) {
        j := left + 1;
      }
      LeastChild(s, i, j);
      if !Less(a[j], a[i]) {
        forall k | 0 < k < n && (k - 1) / 2 == i ensures Leq(s[i], s[k]) {
          LeqTransitive(s[i], s[j], s[k]);
        }
        DownStop(s, lo, i);
        break;
      }
      LessTotal(a[i], a[j]);
      DownStep(s, lo, i, j);
      Swap(a, n, i, j);
      i := j;
    }
  }

  lemma LeastChild(s: seq<Volume>, i: int, j: int)
    requires 0 <= i && 2 * i + 1 < |s|
    requires j == if 2 * i + 2 < |s| && Less(s[2 * i + 2], s[2 * i + 1]) then 2 * i + 2 else 2 * i + 1
    ensures forall k :: 0 < k < |s| && (k - 1) / 2 == i ==> Leq(s[j], s[k])
  {
    forall k | 0 < k < |s| && (k - 1) / 2 == i ensures Leq(s[j], s[k]) {
      assert k == 2 * i + 1 || k == 2 * i + 2;
      LessTotal(s[j], s[k]);
    }
  }

  /** heap.Init */
  method Init(a: array<Volume>)
    modifies a
    ensures IsHeap(a[..])
    ensures multiset(a[..]) == old(multiset(a[..]))
  {
    var n := a.Length;
    var i := n / 2 - 1;
    assert a[..n] == a[..];
    while i >= 0
      invariant -1 <= i < n
      invariant HeapFrom(a[..n], i + 1)
      invariant multiset(a[..n]) == old(multiset(a[..n]))
    {
      Down(a, i, n, i);
      i := i - 1;
    }
    assert a[..n] == a[..];
  }

  /** heap.Pop: takes the least volume out of the first n slots. */
  method Pop(a: array<Volume>, n: int) returns (x: Volume)
    requires 0 < n <= a.Length && IsHeap(a[..n])
    modifies a
    ensures IsHeap(a[..n - 1])
    ensures multiset(a[..n - 1]) + multiset{x} == old(multiset(a[..n]))
    ensures forall v :: v in old(a[..n]) ==> Leq(x, v)
    ensures forall k :: n <= k < a.Length ==> a[k] == old(a[k])
  {
    hide IsHeap, HoleAt, HeapFrom, Leq, Swapped;
    ghost var s := a[..n];
    Swap(a, n, 0, n - 1);
    var last := n - 1;
    assert a[..n][..last] == a[..last];
    RootSwapped(s, a[..n]);
    Down(a, 0, last, 0);
    WholeHeap(a[..last]);
    x := a[last];
  }

  lemma WholeHeap(s: seq<Volume>)
    requires HeapFrom(s, 0)
    ensures IsHeap(s)
  {
  }

  /** The root moved to the end is a least volume, and the hole it leaves is at the root. */
  lemma RootSwapped(s: seq<Volume>, u: seq<Volume>)
    requires s != [] && IsHeap(s) && u == Swapped(s, 0, |s| - 1)
    ensures HoleAt(u[..|s| - 1], 0, 0)
    ensures multiset(u[..|s| - 1]) + multiset{u[|s| - 1]} == multiset(s)
    ensures forall v :: v in s ==> Leq(u[|s| - 1], v)
  {
    RootLeastOfAll(s);
    RootOut(s, u[..|s| - 1]);
  }

  /** The root swapped with the last slot and cut off. */
  lemma RootOut(s: seq<Volume>, t: seq<Volume>)
    requires IsHeap(s) && |s| == |t| + 1
    requires forall k :: 0 <= k < |t| ==> t[k] == if k == 0 then s[|t|] else s[k]
    ensures HoleAt(t, 0, 0)
    ensures multiset(t) + multiset{s[0]} == multiset(s)
  {
    forall k | 0 < k < |t| && (k - 1) / 2 != 0 ensures Edge(t, k) {
      assert Edge(s, k);
    }
    assert t + [s[0]] == Swapped(s, 0, |t|);
  }

  lemma RootLeastOfAll(s: seq<Volume>)
    requires s != [] && IsHeap(s)
    ensures forall v :: v in s ==> Leq(s[0], v)
  {
    forall v | v in s ensures Leq(s[0], v) {
      var k :| 0 <= k < |s| && s[k] == v;
      RootLeast(s, k);
    }
  }

  lemma {:induction false} RootLeast(s: seq<Volume>, k: int)
    requires 0 <= k < |s| && IsHeap(s)
    ensures Leq(s[0], s[k])
    decreases k
  {
    if k == 0 {
      LessTotal(s[0], s[0]);
    } else {
      assert Edge(s, k);
      RootLeast(s, (k - 1) / 2);
      LeqTransitive(s[0], s[(k - 1) / 2], s[k]);
    }
  }

  /** Heap order except on the edge into slot j, whose children are at least its parent. */
  ghost predicate RisingAt(s: seq<Volume>, j: int)
    requires 0 <= j < |s|
  {
    && (forall k {:trigger Edge(s, k)} :: 0 < k < |s| && k != j ==> Edge(s, k))
    && (j > 0 ==> Bridged(s, j))
  }

  lemma UpStep(s: seq<Volume>, j: int)
    requires 0 < j < |s| && RisingAt(s, j) && Less(s[j], s[(j - 1) / 2])
    ensures RisingAt(Swapped(s, (j - 1) / 2, j), (j - 1) / 2)
  {
    var i := (j - 1) / 2;
    var t := Swapped(s, i, j);
    LessTotal(s[i], s[j]);
    forall k | 0 < k < |t| && k != i ensures Edge(t, k) {
      if k != j {
        assert Edge(s, k);
        if (k - 1) / 2 == i {
          LeqTransitive(s[j], s[i], s[k]);
        }
      }
    }
    if i > 0 {
      assert Edge(s, i);
      forall k | 0 < k < |t| && (k - 1) / 2 == i ensures Leq(t[(i - 1) / 2], t[k]) {
        if k != j {
          assert Edge(s, k);
          LeqTransitive(s[(i - 1) / 2], s[i], s[k]);
        }
      }
    }
  }

  /** heap.Push: appends in the next slot of the backing array and sifts up. */
  method Push(a: array<Volume>, n: int, x: Volume)
    requires 0 <= n < a.Length && IsHeap(a[..n])
    modifies a
    ensures IsHeap(a[..n + 1])
    ensures multiset(a[..n + 1]) == old(multiset(a[..n])) + multiset{x}
    ensures forall k :: n < k < a.Length ==> a[k] == old(a[k])
  {
    hide RisingAt, IsHeap, Leq, Less, Swapped, Gathered;
    ghost var before := a[..n];
    a[n] := x;
    assert a[..n + 1] == before + [x];
    Appended(before, x);
    var j := n;
    while true
      invariant 0 <= j <= n
      invariant RisingAt(a[..n + 1], j) && Gathered(a[..n + 1], before, x)
      invariant forall k :: n < k < a.Length ==> a[k] == old(a[k])
      decreases j
    {
      ghost var s := a[..n + 1];
      if j == 0 {
        Risen(s, j, before, x);
        break;
      }
      var i := (j - 1) / 2;
      if !Less(a[j], a[i]) {
        Risen(s, j, before, x);
        break;
      }
      UpStep(s, j);
      Swap(a, n + 1, i, j);
      StillGathered(s, i, j, before, x);
      j := i;
    }
  }

  /** s holds what was there before and x. */
  ghost predicate Gathered(s: seq<Volume>, before: seq<Volume>, x: Volume) {
    multiset(s) == multiset(before) + multiset{x}
  }

  lemma StillGathered(s: seq<Volume>, i: int, j: int, before: seq<Volume>, x: Volume)
    requires 0 <= i < |s| && 0 <= j < |s| && Gathered(s, before, x)
    ensures Gathered(Swapped(s, i, j), before, x)
  {
  }

  lemma Risen(s: seq<Volume>, j: int, before: seq<Volume>, x: Volume)
    requires 0 <= j < |s| && RisingAt(s, j) && (j > 0 ==> !Less(s[j], s[(j - 1) / 2])) && Gathered(s, before, x)
    ensures IsHeap(s) && multiset(s) == multiset(before) + multiset{x}
  {
    assert j > 0 ==> Edge(s, j);
  }

  lemma Appended(s: seq<Volume>, x: Volume)
    requires IsHeap(s)
    ensures RisingAt(s + [x], |s|) && Gathered(s + [x], s, x)
  {
    forall k | 0 < k < |s| ensures Edge(s + [x], k) {
      assert Edge(s, k);
    }
  }

  /** Pushes back every volume that was taken out. */
  method PushAll(a: array<Volume>, n: int, xs: seq<Volume>)
    requires 0 <= n && n + |xs| == a.Length && IsHeap(a[..n])
    modifies a
    ensures IsHeap(a[..])
    ensures multiset(a[..]) == old(multiset(a[..n])) + multiset(xs)
  {
    hide IsHeap, Together;
    ghost var before := multiset(a[..n]);
    var m := n;
    assert Together(a[..m], before, xs, 0) by { NoneYet(a[..m], xs); }
    while m < a.Length
      invariant n <= m <= a.Length
      invariant IsHeap(a[..m])
      invariant Together(a[..m], before, xs, m - n)
    {
      ghost var s := a[..m];
      Push(a, m, xs[m - n]);
      TogetherNext(s, a[..m + 1], before, xs, m - n);
      m := m + 1;
    }
    assert a[..m] == a[..];
    AllTogether(a[..], before, xs);
  }

  lemma NoneYet(s: seq<Volume>, xs: seq<Volume>)
    ensures Together(s, multiset(s), xs, 0)
  {
  }

  lemma AllTogether(s: seq<Volume>, before: multiset<Volume>, xs: seq<Volume>)
    requires Together(s, before, xs, |xs|)
    ensures multiset(s) == before + multiset(xs)
  {
    assert xs[..|xs|] == xs;
  }

  /** s holds what was there before and the first k of xs. */
  ghost predicate Together(s: seq<Volume>, before: multiset<Volume>, xs: seq<Volume>, k: nat) {
    k <= |xs| && multiset(s) == before + multiset(xs[..k])
  }

  lemma TogetherNext(s: seq<Volume>, t: seq<Volume>, before: multiset<Volume>, xs: seq<Volume>, k: nat)
    requires k < |xs| && Together(s, before, xs, k) && multiset(t) == multiset(s) + multiset{xs[k]}
    ensures Together(t, before, xs, k + 1)
  {
    assert xs[..k + 1] == xs[..k] + [xs[k]];
  }
}
