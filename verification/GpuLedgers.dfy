/** The GPU plugin's usage as a ledger of live workloads: deploying, reallocating, releasing, comparing and fixing. */
module GpuLedgers {
  import opened Options
  import opened Sums
  import opened Gpu

  datatype Ledger = Ledger(capacity: Counts, usage: Counts, live: seq<Counts>)

  datatype Step = Deploy(ws: seq<Counts>) | Realloc(index: nat, target: Counts) | Release(index: nat) | Fix

  /** Which product names are nothing but space. */
  type Blank = string -> bool

  /** Validation of a record: positive counts of named products. Usage is not held against capacity. */
  predicate Acceptable(blank: Blank, capacity: Counts, usage: Counts) {
    ValidRequest(capacity) && ValidRequest(usage) && (forall p :: p in capacity ==> !blank(p)) && forall p :: p in usage ==> !blank(p)
  }

  /** A write: validated, and without effect when validation fails. */
  function Commit(blank: Blank, l: Ledger, usage: Counts, live: seq<Counts>): Ledger {
    if Acceptable(blank, l.capacity, usage) then Ledger(l.capacity, usage, live) else l
  }

  /** What the workloads use, added up. */
  function Actual(live: seq<Counts>): Counts {
    Moved(map[], live, 1)
  }

  /** The comparison finds nothing: the totals agree, and so does every product of a workload. */
  ghost predicate NoDiffs(usage: Counts, actual: Counts) {
    && TotalOf(usage, usage.Keys) == TotalOf(actual, actual.Keys)
    && forall p :: p in actual ==> p in usage && usage[p] == actual[p]
  }

  ghost function Take(blank: Blank, l: Ledger, s: Step): Ledger {
    match s
    case Deploy(ws) => Commit(blank, l, Calculated(None, None, Some(l.usage), ws, true, true), l.live + ws)
    case Realloc(i, target) =>
      if i >= |l.live| then l else
        Commit(blank, l, Calculated(None, None, Some(l.usage), [Shifted(target, l.live[i], -1)], true, true), l.live[i := target])
    case Release(i) =>
      if i >= |l.live| then l else
        Commit(blank, l, Calculated(None, None, Some(l.usage), [l.live[i]], true, false), l.live[..i] + l.live[i + 1..])
    case Fix => if NoDiffs(l.usage, Actual(l.live)) then l else Commit(blank, l, Actual(l.live), l.live)
  }

  ghost function TakeAll(blank: Blank, l: Ledger, steps: seq<Step>): Ledger {
    if steps == [] then l else Take(blank, TakeAll(blank, l, steps[..|steps| - 1]), steps[|steps| - 1])
  }

  /** The usage of every product is the sum of what the live workloads hold of it. */
  ghost predicate Balanced(l: Ledger) {
    forall p :: CountOf(l.usage, p) == SumBy(CountAt(p), l.live)
  }

  // ---- Comparing

  ghost predicate NoZero(m: Counts) {
    forall p :: p in m ==> m[p] != 0
  }

  lemma {:induction false} ActualNoZero(live: seq<Counts>)
    ensures NoZero(Actual(live))
  {
    if live != [] {
      ActualNoZero(live[..|live| - 1]);
    }
  }

  lemma {:induction false} TotalSame(a: Counts, b: Counts, products: set<string>)
    requires forall p :: p in products ==> CountOf(a, p) == CountOf(b, p)
    ensures TotalOf(a, products) == TotalOf(b, products)
    decreases |products|
  {
    if products != {} {
      var p :| p in products;
      TotalSame(a, b, products - {p});
      TotalWithout(a, products, p);
      TotalWithout(b, products, p);
    }
  }

  /** Products of which there is none add nothing. */
  lemma {:induction false} TotalMore(m: Counts, products: set<string>, more: set<string>)
    requires products <= more && forall p :: p in more - products ==> CountOf(m, p) == 0
    ensures TotalOf(m, more) == TotalOf(m, products)
    decreases |more|
  {
    if more - products == {} {
      assert more == products;
    } else {
      var p :| p in more - products;
      TotalWithout(m, more, p);
      TotalMore(m, products, more - {p});
    }
  }

  /** Equal counts of every product are not reported. */
  lemma EqualNoDiffs(usage: Counts, actual: Counts)
    requires (forall p :: CountOf(usage, p) == CountOf(actual, p)) && NoZero(actual)
    ensures NoDiffs(usage, actual)
  {
    var all := usage.Keys + actual.Keys;
    TotalMore(usage, usage.Keys, all);
    TotalMore(actual, actual.Keys, all);
    TotalSame(usage, actual, all);
    forall p | p in actual ensures p in usage && usage[p] == actual[p] {
      assert CountOf(usage, p) == CountOf(actual, p);
    }
  }

  lemma {:induction false} TotalPositive(m: Counts, products: set<string>)
    requires ValidRequest(m) && products <= m.Keys
    ensures TotalOf(m, products) >= |products|
    decreases |products|
  {
    if products != {} {
      var p :| p in products;
      TotalWithout(m, products, p);
      TotalPositive(m, products - {p});
    }
  }

  /** For a usage that validates, the comparison finds nothing exactly when usage is what the workloads use. */
  lemma NoDiffsMeansEqual(usage: Counts, live: seq<Counts>)
    requires ValidRequest(usage)
    ensures NoDiffs(usage, Actual(live)) <==> usage == Actual(live)
  {
    var actual := Actual(live);
    ActualNoZero(live);
    if NoDiffs(usage, actual) {
      var rest := usage.Keys - actual.Keys;
      TotalSplit(usage, actual.Keys, rest);
      assert usage.Keys == actual.Keys + rest;
      TotalSame(usage, actual, actual.Keys);
      TotalPositive(usage, rest);
      assert rest == {};
    }
  }

  lemma {:induction false} TotalSplit(m: Counts, a: set<string>, b: set<string>)
    requires a !! b
    ensures TotalOf(m, a + b) == TotalOf(m, a) + TotalOf(m, b)
    decreases |b|
  {
    if b == {} {
      assert a + b == a;
    } else {
      var p :| p in b;
      TotalWithout(m, a + b, p);
      TotalWithout(m, b, p);
      assert a + b - {p} == a + (b - {p});
      TotalSplit(m, a, b - {p});
    }
  }

  // ---- Runs

  lemma ActualCounts(live: seq<Counts>, p: string)
    ensures CountOf(Actual(live), p) == SumBy(CountAt(p), live)
  {
    MovedCounts(map[], live, 1, p);
  }

  lemma NothingReported(l: Ledger)
    requires Balanced(l)
    ensures NoDiffs(l.usage, Actual(l.live))
  {
    ActualNoZero(l.live);
    forall p ensures CountOf(l.usage, p) == CountOf(Actual(l.live), p) {
      ActualCounts(l.live, p);
    }
    EqualNoDiffs(l.usage, Actual(l.live));
  }

  lemma StepBalanced(blank: Blank, l: Ledger, s: Step)
    requires Balanced(l)
    ensures Balanced(Take(blank, l, s))
  {
    match s
    case Deploy(ws) =>
      forall p ensures CountOf(Moved(l.usage, ws, 1), p) == SumBy(CountAt(p), l.live + ws) {
        MovedCounts(l.usage, ws, 1, p);
        SumConcat(CountAt(p), l.live, ws);
      }
    case Realloc(i, target) =>
      if i < |l.live| {
        forall p ensures CountOf(Moved(l.usage, [Shifted(target, l.live[i], -1)], 1), p) == SumBy(CountAt(p), l.live[i := target]) {
          OneMoved(l.usage, Shifted(target, l.live[i], -1), 1, p);
          ShiftedCount(target, l.live[i], -1, p);
          Replaced(CountAt(p), l.live, i, target);
        }
      }
    case Release(i) =>
      if i < |l.live| {
        forall p ensures CountOf(Moved(l.usage, [l.live[i]], -1), p) == SumBy(CountAt(p), l.live[..i] + l.live[i + 1..]) {
          OneMoved(l.usage, l.live[i], -1, p);
          Replaced(CountAt(p), l.live, i, l.live[i]);
        }
      }
    case Fix => NothingReported(l);
  }

  lemma OneMoved(usage: Counts, w: Counts, sign: int, p: string)
    requires sign == 1 || sign == -1
    ensures CountOf(Moved(usage, [w], sign), p) == CountOf(usage, p) + sign * CountOf(w, p)
  {
    MovedCounts(usage, [w], sign, p);
    SumAppend(CountAt(p), [], w);
    assert [] + [w] == [w];
  }

  lemma Replaced<T>(f: T -> int, s: seq<T>, i: nat, x: T)
    requires i < |s|
    ensures SumBy(f, s[i := x]) == SumBy(f, s) - f(s[i]) + f(x)
    ensures SumBy(f, s[..i] + s[i + 1..]) == SumBy(f, s) - f(s[i])
  {
    assert s == s[..i] + [s[i]] + s[i + 1..];
    assert s[i := x] == s[..i] + [x] + s[i + 1..];
    SumConcat(f, s[..i] + [s[i]], s[i + 1..]);
    SumConcat(f, s[..i] + [x], s[i + 1..]);
    SumConcat(f, s[..i], s[i + 1..]);
    SumAppend(f, s[..i], s[i]);
    SumAppend(f, s[..i], x);
  }

  /** Every run from a balanced ledger, with any steps and any refusals, ends balanced, with nothing to report. */
  lemma {:induction false} RunBalanced(blank: Blank, l: Ledger, steps: seq<Step>)
    requires Balanced(l)
    ensures var r := TakeAll(blank, l, steps); Balanced(r) && NoDiffs(r.usage, Actual(r.live))
  {
    if steps != [] {
      RunBalanced(blank, l, steps[..|steps| - 1]);
      StepBalanced(blank, TakeAll(blank, l, steps[..|steps| - 1]), steps[|steps| - 1]);
    }
    NothingReported(TakeAll(blank, l, steps));
  }

  // ---- The stored record

  datatype Diff = TotalDiff | Missing(prod: string) | Unequal(prod: string)

  class CountStore {
    const blank: Blank
    var capacity: Counts
    var usage: Counts

    function With(live: seq<Counts>): Ledger
      reads this
    {
      Ledger(capacity, usage, live)
    }

    constructor (blank: Blank, capacity: Counts, usage: Counts)
      ensures this.blank == blank && this.capacity == capacity && this.usage == usage
    {
      this.blank := blank;
      this.capacity := capacity;
      this.usage := usage;
    }

    /** Writes a usage when the record with it validates, and leaves the record alone otherwise. */
    method Put(newUsage: Counts, ghost before: seq<Counts>, ghost live: seq<Counts>) returns (ok: bool)
      modifies this`usage
      ensures ok <==> Acceptable(blank, capacity, newUsage)
      ensures With(if ok then live else before) == Commit(blank, old(With(before)), newUsage, live)
    {
      ok := Acceptable(blank, capacity, newUsage);
      if ok {
        usage := newUsage;
      }
    }

    method Deploy(ws: seq<Counts>, ghost live: seq<Counts>) returns (ok: bool)
      modifies this`usage
      ensures With(if ok then live + ws else live) == Take(blank, old(With(live)), Step.Deploy(ws))
    {
      var r := CalculateNodeResource(None, None, Some(usage), ws, true, true);
      ok := Put(r, live, live + ws);
    }

    method Realloc(origin: Counts, target: Counts, ghost live: seq<Counts>, ghost i: nat) returns (ok: bool)
      requires i < |live| && origin == live[i]
      modifies this`usage
      ensures With(if ok then live[i := target] else live) == Take(blank, old(With(live)), Step.Realloc(i, target))
    {
      var delta := Shift(target, origin, -1);
      var r := CalculateNodeResource(None, None, Some(usage), [delta], true, true);
      ok := Put(r, live, live[i := target]);
    }

    method Release(w: Counts, ghost live: seq<Counts>, ghost i: nat) returns (ok: bool)
      requires i < |live| && w == live[i]
      modifies this`usage
      ensures With(if ok then live[..i] + live[i + 1..] else live) == Take(blank, old(With(live)), Step.Release(i))
    {
      var r := CalculateNodeResource(None, None, Some(usage), [w], true, false);
      ok := Put(r, live, live[..i] + live[i + 1..]);
    }

    /** getNodeResourceInfo: what the workloads use, and where the stored usage disagrees, in any order of the map. */
    method Compare(ws: seq<Counts>) returns (actual: Counts, diffs: seq<Diff>)
      ensures actual == Actual(ws)
      ensures TotalDiff in diffs <==> TotalOf(actual, actual.Keys) != TotalOf(usage, usage.Keys)
      ensures forall p :: Missing(p) in diffs <==> p in actual && p !in usage
      ensures forall p :: Unequal(p) in diffs <==> p in actual && p in usage && actual[p] != usage[p]
      ensures diffs == [] <==> NoDiffs(usage, actual)
    {
      actual := CalculateNodeResource(None, None, None, ws, false, true);
      diffs := [];
      var total := Count(actual);
      var stored := Count(usage);
      if total != stored {
        diffs := [TotalDiff];
      }
      var rest := actual.Keys;
      while rest != {}
        invariant rest <= actual.Keys && (TotalDiff in diffs <==> total != stored)
        invariant forall p :: Missing(p) in diffs <==> p in actual && p !in rest && p !in usage
        invariant forall p :: Unequal(p) in diffs <==> p in actual && p !in rest && p in usage && actual[p] != usage[p]
        decreases |rest|
      {
        var prod :| prod in rest;
        rest := rest - {prod};
        if prod !in usage {
          diffs := diffs + [Missing(prod)];
        } else if actual[prod] != usage[prod] {
          diffs := diffs + [Unequal(prod)];
        }
      }
      DiffsExact(usage, actual, diffs);
    }

    /** FixNodeResource: rewrites the usage when it disagrees; succeeds exactly when the comparison finds nothing afterwards. */
    method Fix(ws: seq<Counts>) returns (ok: bool)
      modifies this`usage
      ensures With(ws) == Take(blank, old(With(ws)), Step.Fix)
      ensures ok <==> NoDiffs(usage, Actual(ws))
    {
      var actual, diffs := Compare(ws);
      ok := true;
      if diffs != [] {
        ok := Put(actual, ws, ws);
        if ok {
          ActualNoZero(ws);
          EqualNoDiffs(actual, actual);
        }
      }
    }
  }

  lemma DiffsExact(usage: Counts, actual: Counts, diffs: seq<Diff>)
    requires TotalDiff in diffs <==> TotalOf(actual, actual.Keys) != TotalOf(usage, usage.Keys)
    requires forall p :: Missing(p) in diffs <==> p in actual && p !in usage
    requires forall p :: Unequal(p) in diffs <==> p in actual && p in usage && actual[p] != usage[p]
    ensures diffs == [] <==> NoDiffs(usage, actual)
  {
    if diffs != [] {
      match diffs[0]
      case TotalDiff => assert TotalDiff in diffs;
      case Missing(p) => assert Missing(p) in diffs;
      case Unequal(p) => assert Unequal(p) in diffs;
    } else {
      forall p | p in actual ensures p in usage && usage[p] == actual[p] {
        assert Missing(p) !in diffs && Unequal(p) !in diffs;
      }
    }
  }
}
