/** Volume bindings, the four kinds the scheduler tells apart, and their classification. */
module Bindings {
  import opened Quantity

  datatype VolumeBinding = VolumeBinding(source: string, destination: string, flags: string, size: int, quota: Quota) {

    /** The source ends in AUTO or is empty. */
    predicate RequireSchedule() {
      source == "" || (|source| >= 4 && source[|source| - 4..] == "AUTO")
    }

    predicate RequireScheduleUnlimitedQuota() {
      RequireSchedule() && size == 0 && quota.IsZero()
    }

    predicate RequireScheduleMonopoly() {
      RequireSchedule() && 'm' in flags
    }

    predicate RequireIOPS() {
      quota.Positive()
    }

    function MapKey(): (string, string, string) {
      (source, destination, flags)
    }

    function AddQuota(o: VolumeBinding): VolumeBinding {
      this.(size := size + o.size, quota := quota.Plus(o.quota))
    }
  }

  datatype Kind = Normal | Mono | Unlimited | Mount

  function KindOf(b: VolumeBinding): Kind {
    if b.RequireScheduleMonopoly() then Mono
    else if b.RequireScheduleUnlimitedQuota() then Unlimited
    else if b.RequireSchedule() then Normal
    else Mount
  }

  /** What request validation and the caller guarantee of one binding. */
  predicate ValidBinding(b: VolumeBinding) {
    b.size >= 0 && b.quota.NonNegative() && (b.RequireScheduleMonopoly() ==> b.size > 0)
  }

  /** Valid bindings with distinct destinations. */
  ghost predicate ValidRequests(reqs: seq<VolumeBinding>) {
    && (forall b :: b in reqs ==> ValidBinding(b))
    && (forall i, j :: 0 <= i < j < |reqs| ==> reqs[i].destination != reqs[j].destination)
  }

  predicate NeedSchedule(reqs: seq<VolumeBinding>) {
    exists b :: b in reqs && (b.RequireSchedule() || b.RequireIOPS())
  }

  predicate AnyRequireIOPS(reqs: seq<VolumeBinding>) {
    exists b :: b in reqs && b.RequireIOPS()
  }

  function OfKind(reqs: seq<VolumeBinding>, k: Kind): (r: seq<VolumeBinding>)
    ensures forall b :: b in r <==> b in reqs && KindOf(b) == k
    ensures |r| <= |reqs|
  {
    if reqs == [] then [] else
      var r := OfKind(reqs[..|reqs| - 1], k);
      var b := reqs[|reqs| - 1];
      assert reqs == reqs[..|reqs| - 1] + [b];
      if KindOf(b) == k then r + [b] else r
  }

  ghost predicate SortedBySize(s: seq<VolumeBinding>) {
    forall i, j :: 0 <= i < j < |s| ==> s[i].size <= s[j].size
  }

  /** Where a stable sort puts b: after everything not larger. */
  function Insert(s: seq<VolumeBinding>, b: VolumeBinding): (r: seq<VolumeBinding>)
    ensures |r| == |s| + 1
  {
    if s == [] || s[|s| - 1].size <= b.size then s + [b] else Insert(s[..|s| - 1], b) + [s[|s| - 1]]
  }

  /** The stable sort by size. */
  function SortBySize(s: seq<VolumeBinding>): (r: seq<VolumeBinding>)
    ensures |r| == |s|
  {
    if s == [] then [] else Insert(SortBySize(s[..|s| - 1]), s[|s| - 1])
  }

  lemma {:induction false} InsertKeeps(s: seq<VolumeBinding>, b: VolumeBinding)
    ensures multiset(Insert(s, b)) == multiset(s) + multiset{b}
  {
    if s != [] && s[|s| - 1].size > b.size {
      InsertKeeps(s[..|s| - 1], b);
      assert s == s[..|s| - 1] + [s[|s| - 1]];
    }
  }

  lemma {:induction false} InsertSorted(s: seq<VolumeBinding>, b: VolumeBinding)
    requires SortedBySize(s)
    ensures SortedBySize(Insert(s, b))
    ensures Insert(s, b)[|s|] == if s == [] || s[|s| - 1].size <= b.size then b else s[|s| - 1]
  {
    if s != [] && s[|s| - 1].size > b.size {
      InsertSorted(s[..|s| - 1], b);
    }
  }

  lemma {:induction false} SortBySizeKeeps(s: seq<VolumeBinding>)
    ensures multiset(SortBySize(s)) == multiset(s)
  {
    if s != [] {
      SortBySizeKeeps(s[..|s| - 1]);
      InsertKeeps(SortBySize(s[..|s| - 1]), s[|s| - 1]);
      assert s == s[..|s| - 1] + [s[|s| - 1]];
    }
  }

  lemma {:induction false} SortBySizeSorted(s: seq<VolumeBinding>)
    ensures SortedBySize(SortBySize(s))
  {
    if s != [] {
      SortBySizeSorted(s[..|s| - 1]);
      InsertSorted(SortBySize(s[..|s| - 1]), s[|s| - 1]);
    }
  }

  /** SortBySize returns the same bindings in ascending size. */
  lemma SortBySizeSorts(s: seq<VolumeBinding>)
    ensures SortedBySize(SortBySize(s))
    ensures multiset(SortBySize(s)) == multiset(s)
    ensures forall b :: b in SortBySize(s) <==> b in s
  {
    SortBySizeKeeps(s);
    SortBySizeSorted(s);
    forall b ensures b in SortBySize(s) <==> b in s {
      assert b in SortBySize(s) <==> b in multiset(SortBySize(s));
      assert b in s <==> b in multiset(s);
    }
  }

  datatype RequestClasses = RequestClasses(
    normal: seq<VolumeBinding>, mono: seq<VolumeBinding>, unlimited: seq<VolumeBinding>, mount: seq<VolumeBinding>)

  function Classify(reqs: seq<VolumeBinding>): RequestClasses {
    RequestClasses(
      SortBySize(OfKind(reqs, Normal)), SortBySize(OfKind(reqs, Mono)), OfKind(reqs, Unlimited), OfKind(reqs, Mount))
  }

  method ClassifyVolumeBindings(bindings: seq<VolumeBinding>) returns (classes: RequestClasses)
    ensures classes == Classify(bindings)
  {
    classes := RequestClasses([], [], [], []);
    for i := 0 to |bindings|
      invariant classes == RequestClasses(
        OfKind(bindings[..i], Normal), OfKind(bindings[..i], Mono), OfKind(bindings[..i], Unlimited), OfKind(bindings[..i], Mount))
    {
      var binding := bindings[i];
      assert bindings[..i + 1][..i] == bindings[..i];
      if binding.RequireScheduleMonopoly() {
        classes := classes.(mono := classes.mono + [binding]);
      } else if binding.RequireScheduleUnlimitedQuota() {
        classes := classes.(unlimited := classes.unlimited + [binding]);
      } else if binding.RequireSchedule() {
        classes := classes.(normal := classes.normal + [binding]);
      } else {
        classes := classes.(mount := classes.mount + [binding]);
      }
    }
    assert bindings[..|bindings|] == bindings;
    classes := classes.(mono := SortBySize(classes.mono), normal := SortBySize(classes.normal));
  }

  /** A source that asks for a volume: it is empty or ends in AUTO. */
  predicate Automatic(source: string) {
    source == "" || exists i :: 0 <= i <= |source| && source[i..] == "AUTO"
  }

  /** What a binding's source, flags, size and quota ask for. */
  ghost predicate AsksFor(b: VolumeBinding, k: Kind) {
    match k
    case Mono => Automatic(b.source) && 'm' in b.flags
    case Unlimited => Automatic(b.source) && 'm' !in b.flags && b.size == 0 && b.quota == Quota(0, 0, 0, 0)
    case Normal => Automatic(b.source) && 'm' !in b.flags && (b.size != 0 || b.quota != Quota(0, 0, 0, 0))
    case Mount => !Automatic(b.source)
  }

  lemma KindIsAsked(b: VolumeBinding)
    ensures forall k :: KindOf(b) == k <==> AsksFor(b, k)
  {
    if b.source != "" && b.RequireSchedule() {
      assert b.source[|b.source| - 4..] == "AUTO";
    }
    assert Automatic(b.source) <==> b.RequireSchedule();
  }

  lemma ClassesSorted(reqs: seq<VolumeBinding>)
    ensures SortedBySize(Classify(reqs).normal) && SortedBySize(Classify(reqs).mono)
    ensures var c := Classify(reqs); multiset(c.normal + c.mono + c.unlimited + c.mount) == multiset(reqs)
  {
    SortBySizeSorts(OfKind(reqs, Normal));
    SortBySizeSorts(OfKind(reqs, Mono));
    ClassifyPartitions(reqs);
    var c := Classify(reqs);
    assert multiset(c.normal + c.mono + c.unlimited + c.mount)
      == multiset(c.normal) + multiset(c.mono) + multiset(c.unlimited) + multiset(c.mount);
  }

  /** Every class holds the requests that ask for it. */
  lemma ClassesApart(reqs: seq<VolumeBinding>)
    ensures var c := Classify(reqs);
      && (forall b :: b in c.mono <==> b in reqs && AsksFor(b, Mono))
      && (forall b :: b in c.unlimited <==> b in reqs && AsksFor(b, Unlimited))
      && (forall b :: b in c.normal <==> b in reqs && AsksFor(b, Normal))
      && (forall b :: b in c.mount <==> b in reqs && AsksFor(b, Mount))
  {
    SortBySizeSorts(OfKind(reqs, Normal));
    SortBySizeSorts(OfKind(reqs, Mono));
    hide KindOf, AsksFor, SortBySize, SortedBySize;
    forall b: VolumeBinding {
      KindIsAsked(b);
    }
  }

  /** Every request lands in exactly one class, and in it once. */
  lemma {:induction false} ClassifyPartitions(reqs: seq<VolumeBinding>)
    ensures var c := Classify(reqs);
      multiset(c.normal) + multiset(c.mono) + multiset(c.unlimited) + multiset(c.mount) == multiset(reqs)
  {
    OfKindPartitions(reqs);
    SortBySizeSorts(OfKind(reqs, Normal));
    SortBySizeSorts(OfKind(reqs, Mono));
  }

  lemma {:induction false} OfKindPartitions(reqs: seq<VolumeBinding>)
    ensures multiset(OfKind(reqs, Normal)) + multiset(OfKind(reqs, Mono)) + multiset(OfKind(reqs, Unlimited)) + multiset(OfKind(reqs, Mount))
         == multiset(reqs)
  {
    if reqs != [] {
      assert reqs == reqs[..|reqs| - 1] + [reqs[|reqs| - 1]];
      OfKindPartitions(reqs[..|reqs| - 1]);
    }
  }

  /** What the scheduler may rely on in each class. */
  ghost predicate ValidClasses(c: RequestClasses) {
    && (forall b :: b in c.normal ==> ValidBinding(b) && (b.size > 0 || b.RequireIOPS()))
    && (forall b :: b in c.mono ==> ValidBinding(b) && b.size > 0)
    && (forall b :: b in c.unlimited ==> b.size == 0 && b.quota.IsZero())
    && (forall b :: b in c.mount ==> ValidBinding(b))
    && SortedBySize(c.normal) && SortedBySize(c.mono)
  }

  lemma KindOfValid(b: VolumeBinding)
    requires ValidBinding(b)
    ensures KindOf(b) == Normal ==> b.size > 0 || b.RequireIOPS()
    ensures KindOf(b) == Mono ==> b.size > 0
    ensures KindOf(b) == Unlimited ==> b.size == 0 && b.quota.IsZero()
  {
  }

  lemma ClassifyValid(reqs: seq<VolumeBinding>)
    requires ValidRequests(reqs)
    ensures ValidClasses(Classify(reqs))
  {
    SortBySizeSorts(OfKind(reqs, Normal));
    SortBySizeSorts(OfKind(reqs, Mono));
    forall b | b in reqs ensures ValidBinding(b) && (KindOf(b) == Normal ==> b.size > 0 || b.RequireIOPS())
      && (KindOf(b) == Mono ==> b.size > 0) && (KindOf(b) == Unlimited ==> b.size == 0 && b.quota.IsZero())
    {
      KindOfValid(b);
    }
  }
}
