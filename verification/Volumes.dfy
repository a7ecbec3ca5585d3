/** Volumes of a host and the total order the scheduler keeps them in: by size, then by device name. */
module Volumes {

  datatype Volume = Volume(device: string, size: int)

  /** Byte-wise order of device names. */
  predicate NameLess(a: string, b: string) {
    b != [] && (a == [] || a[0] < b[0] || (a[0] == b[0] && NameLess(a[1..], b[1..])))
  }

  lemma {:induction false} NameLessTotal(a: string, b: string)
    ensures NameLess(a, b) || NameLess(b, a) || a == b
    ensures !(NameLess(a, b) && NameLess(b, a))
    ensures !NameLess(a, a)
  {
    if a != [] {
      NameLessTotal(a[1..], a[1..]);
      if b != [] {
        NameLessTotal(a[1..], b[1..]);
        if a[0] == b[0] && a[1..] == b[1..] {
          assert a == [a[0]] + a[1..] && b == [b[0]] + b[1..];
        }
      }
    }
  }

  lemma {:induction false} NameLessTransitive(a: string, b: string, c: string)
    requires NameLess(a, b) && NameLess(b, c)
    ensures NameLess(a, c)
  {
    if a != [] && a[0] == b[0] && b[0] == c[0] {
      NameLessTransitive(a[1..], b[1..], c[1..]);
    }
  }

  /** compareVolume(v, w) < 0 */
  predicate Less(v: Volume, w: Volume) {
    v.size < w.size || (v.size == w.size && NameLess(v.device, w.device))
  }

  predicate Leq(v: Volume, w: Volume) {
    !Less(w, v)
  }

  lemma LessTotal(v: Volume, w: Volume)
    ensures Less(v, w) || Less(w, v) || v == w
    ensures !(Less(v, w) && Less(w, v))
    ensures Leq(v, v)
  {
    NameLessTotal(v.device, w.device);
    NameLessTotal(v.device, v.device);
  }

  lemma LeqTransitive(u: Volume, v: Volume, w: Volume)
    requires Leq(u, v) && Leq(v, w)
    ensures Leq(u, w)
  {
    if Less(w, u) {
      LessTotal(u, v);
      LessTotal(v, w);
      if Less(u, v) && Less(v, w) {
        if w.size == u.size {
          NameLessTransitive(u.device, v.device, w.device);
          NameLessTotal(u.device, w.device);
        }
      }
    }
  }

  predicate Apart(v: Volume, w: Volume) {
    v.device != w.device
  }

  ghost predicate Distinct(vs: seq<Volume>) {
    forall i, j {:trigger Apart(vs[i], vs[j])} :: 0 <= i < j < |vs| ==> Apart(vs[i], vs[j])
  }

  /** In a list of distinct devices a device names one position. */
  lemma DistinctAt(vs: seq<Volume>, i: int, j: int)
    requires Distinct(vs) && 0 <= i < |vs| && 0 <= j < |vs| && vs[i].device == vs[j].device
    ensures i == j
  {
    assert i < j ==> Apart(vs[i], vs[j]);
    assert j < i ==> Apart(vs[j], vs[i]);
  }

  ghost predicate Sorted(vs: seq<Volume>) {
    forall i, j :: 0 <= i < j < |vs| ==> Leq(vs[i], vs[j])
  }

  /** Same volumes, any order (for lists of distinct devices). */
  ghost predicate SameVolumes(vs: seq<Volume>, ws: seq<Volume>) {
    |vs| == |ws| && forall v :: v in vs <==> v in ws
  }

  ghost predicate Disjoint(vs: seq<Volume>, ws: seq<Volume>) {
    forall v, w {:trigger Apart(v, w)} :: v in vs && w in ws ==> Apart(v, w)
  }

  ghost predicate NonNegative(vs: seq<Volume>) {
    forall v {:trigger v in vs} :: v in vs ==> v.size >= 0
  }

  /** A rearrangement of a list of distinct devices holds the same distinct devices. */
  lemma PermutationDistinct(vs: seq<Volume>, ws: seq<Volume>)
    requires multiset(vs) == multiset(ws) && Distinct(vs)
    ensures SameVolumes(vs, ws) && Distinct(ws)
  {
    assert |vs| == |multiset(vs)| == |multiset(ws)| == |ws|;
    forall v ensures v in vs <==> v in ws {
      assert v in vs <==> v in multiset(vs);
      assert v in ws <==> v in multiset(ws);
    }
    forall i, j | 0 <= i < j < |ws| ensures Apart(ws[i], ws[j]) {
      if ws[i].device == ws[j].device {
        assert ws[i] in vs && ws[j] in vs;
        var a :| 0 <= a < |vs| && vs[a] == ws[i];
        var b :| 0 <= b < |vs| && vs[b] == ws[j];
        DistinctAt(vs, a, b);
        CountTwice(ws, i, j);
        CountOnce(vs, ws[i]);
      }
    }
  }

  lemma CountOnce(vs: seq<Volume>, v: Volume)
    requires Distinct(vs) && v in vs
    ensures multiset(vs)[v] == 1
  {
    var k :| 0 <= k < |vs| && vs[k] == v;
    assert vs == vs[..k] + [vs[k]] + vs[k + 1..];
    assert multiset(vs) == multiset(vs[..k]) + multiset{vs[k]} + multiset(vs[k + 1..]);
    if v in vs[..k] {
      var i :| 0 <= i < k && vs[i] == v;
      DistinctAt(vs, i, k);
    }
    if v in vs[k + 1..] {
      var i :| 0 <= i < |vs| - k - 1 && vs[k + 1..][i] == v;
      DistinctAt(vs, k + 1 + i, k);
    }
  }

  lemma CountTwice<T>(ws: seq<T>, i: nat, j: nat)
    requires i < j < |ws| && ws[i] == ws[j]
    ensures multiset(ws)[ws[i]] >= 2
  {
    assert ws == ws[..i] + [ws[i]] + ws[i + 1..j] + [ws[j]] + ws[j + 1..];
    assert multiset(ws) == multiset(ws[..i]) + multiset{ws[i]} + multiset(ws[i + 1..j]) + multiset{ws[j]} + multiset(ws[j + 1..]);
  }

  lemma MultisetHead(vs: seq<Volume>)
    requires vs != []
    ensures multiset(vs[1..]) == multiset(vs) - multiset{vs[0]}
  {
    assert vs == [vs[0]] + vs[1..];
  }

  lemma SortedHead(vs: seq<Volume>, v: Volume)
    requires Sorted(vs) && v in vs
    ensures Leq(vs[0], v)
  {
    LessTotal(v, v);
  }

  /** A sorted list is determined by its members: sorting has one answer, whatever order it starts from. */
  lemma {:induction false} SortedUnique(vs: seq<Volume>, ws: seq<Volume>)
    requires Sorted(vs) && Sorted(ws) && multiset(vs) == multiset(ws)
    ensures vs == ws
  {
    assert |vs| == |multiset(vs)| == |multiset(ws)| == |ws|;
    if vs != [] {
      assert vs[0] in multiset(ws) && ws[0] in multiset(vs);
      SortedHead(vs, ws[0]);
      SortedHead(ws, vs[0]);
      LessTotal(vs[0], ws[0]);
      MultisetHead(vs);
      MultisetHead(ws);
      SortedUnique(vs[1..], ws[1..]);
      assert vs == [vs[0]] + vs[1..] && ws == [ws[0]] + ws[1..];
    }
  }
}
