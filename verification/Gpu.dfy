/** The GPU plugin: product counts, allocation, and the capacity that agrees with it. */
module Gpu {
  import opened Options
  import opened Sums

  /** ProdCountMap */
  type Counts = map<string, int>

  const MAX_CAPACITY := 1000000

  function CountOf(m: Counts, prod: string): int {
    if prod in m then m[prod] else 0
  }

  /** Every entry of b moved a by sign; an entry that becomes zero this way is deleted. */
  function Shifted(a: Counts, b: Counts, sign: int): Counts {
    map p | p in a.Keys + b.Keys && (p in b ==> CountOf(a, p) + sign * b[p] != 0) :: CountOf(a, p) + sign * CountOf(b, p)
  }

  /** r is a with the entries of b outside rest moved. */
  ghost predicate ShiftedBut(a: Counts, b: Counts, sign: int, rest: set<string>, r: Counts) {
    && (forall p :: p in b && p !in rest ==> (p in r <==> CountOf(a, p) + sign * b[p] != 0))
    && (forall p :: p in b && p !in rest && p in r ==> r[p] == CountOf(a, p) + sign * b[p])
    && (forall p :: p !in b || p in rest ==> (p in r <==> p in a) && (p in r ==> r[p] == a[p]))
  }

  lemma ShiftedAll(a: Counts, b: Counts, sign: int, r: Counts)
    requires ShiftedBut(a, b, sign, {}, r)
    ensures r == Shifted(a, b, sign)
  {
  }

  /** ProdCountMap.Add and Sub, in any order of the argument's map. */
  method Shift(a: Counts, b: Counts, sign: int) returns (r: Counts)
    ensures r == Shifted(a, b, sign)
  {
    r := a;
    var rest := b.Keys;
    while rest != {}
      invariant rest <= b.Keys && ShiftedBut(a, b, sign, rest, r)
      decreases |rest|
    {
      var prod :| prod in rest;
      rest := rest - {prod};
      r := r[prod := CountOf(r, prod) + sign * b[prod]];
      if r[prod] == 0 {
        r := r - {prod};
      }
    }
    ShiftedAll(a, b, sign, r);
  }

  /** Adding and subtracting the same counts gives the first ones back exactly when none of those they share is zero. */
  lemma ShiftedBack(a: Counts, b: Counts)
    ensures Shifted(Shifted(a, b, 1), b, -1) == a <==> forall p :: p in a && p in b ==> a[p] != 0
  {
    var c := Shifted(a, b, 1);
    var r := Shifted(c, b, -1);
    forall p ensures CountOf(r, p) == CountOf(a, p) && (p in r <==> p in a && (p in b ==> a[p] != 0)) {
      assert CountOf(c, p) == CountOf(a, p) + CountOf(b, p);
    }
    if forall p :: p in a && p in b ==> a[p] != 0 {
      forall p ensures p in r <==> p in a {
      }
      assert r.Keys == a.Keys;
      forall p | p in a ensures r[p] == a[p] {
        assert CountOf(r, p) == CountOf(a, p);
      }
    }
  }

  /** GetAvailableResource */
  function Available(capacity: Counts, usage: Counts): Counts {
    Shifted(capacity, usage, -1)
  }

  /** Request validation: every count is positive. */
  predicate ValidRequest(req: Counts) {
    forall p :: p in req ==> req[p] > 0
  }

  /** n allocations of one product are available. */
  predicate Has(available: Counts, prod: string, count: int, n: nat) {
    n > 0 ==> prod in available && n * count <= available[prod]
  }

  /** n times the request is available. */
  predicate Allows(available: Counts, req: Counts, n: nat) {
    forall p :: p in req ==> Has(available, p, req[p], n)
  }

  /** n times the request, on top of the usage, stays within the capacity of every product it names. */
  ghost predicate StaysWithin(capacity: Counts, usage: Counts, req: Counts, n: nat) {
    n > 0 ==> forall p :: p in req ==> CountOf(usage, p) + n * req[p] <= CountOf(capacity, p)
  }

  /** Having n times the request available is staying within capacity. */
  lemma AllowsIff(capacity: Counts, usage: Counts, req: Counts, n: nat)
    requires ValidRequest(req)
    ensures Allows(Available(capacity, usage), req, n) <==> StaysWithin(capacity, usage, req, n)
  {
    forall p | p in req ensures Has(Available(capacity, usage), p, req[p], n) <==>
      n == 0 || CountOf(usage, p) + n * req[p] <= CountOf(capacity, p)
    {
      ShiftedCount(capacity, usage, -1, p);
      assert n > 0 ==> n * req[p] > 0;
      hide Shifted;
    }
  }

  /** What is left of one product after n whole allocations, and one more when the product was already visited. */
  function LeftAfter(available: Counts, req: Counts, n: nat, rest: set<string>, p: string): int {
    CountOf(available, p) - if p in req then (if p in rest then n * req[p] else (n + 1) * req[p]) else 0
  }

  /** The available counts while allocation n + 1 is being made, with the products of rest still to come. */
  ghost predicate Drawn(available: Counts, req: Counts, n: nat, rest: set<string>, left: Counts) {
    && left.Keys == available.Keys
    && forall p :: p in left ==> left[p] == LeftAfter(available, req, n, rest, p)
  }

  /** One allocation, in any order of the request's map; on failure it names a product that ran out. */
  method AllocateOne(ghost available: Counts, left: Counts, req: Counts, ghost n: nat)
      returns (short: Option<string>, left': Counts, counts: Counts)
    requires ValidRequest(req) && Drawn(available, req, n, req.Keys, left)
    ensures short.None? ==> counts == req && Drawn(available, req, n, {}, left') && Allows(available, req, n + 1)
    ensures short.Some? ==> short.value in req && !Has(available, short.value, req[short.value], n + 1)
  {
    counts, left' := map[], left;
    var rest := req.Keys;
    while rest != {}
      invariant rest <= req.Keys && Drawn(available, req, n, rest, left')
      invariant AllowsBut(available, req, n + 1, rest) && Copied(req, rest, counts)
      decreases |rest|
    {
      var prod :| prod in rest;
      NextDrawn(available, req, n, rest, left', prod);
      if prod !in left' || left'[prod] < req[prod] {
        return Some(prod), left', counts;
      }
      rest := rest - {prod};
      left' := left'[prod := left'[prod] - req[prod]];
      counts := counts[prod := req[prod]];
    }
    CopiedAll(req, counts);
    short := None;
  }

  /** counts is the request without the products of rest. */
  ghost predicate Copied(req: Counts, rest: set<string>, counts: Counts) {
    && (forall p :: p in counts <==> p in req && p !in rest)
    && (forall p :: p in counts ==> counts[p] == req[p])
  }

  lemma CopiedAll(req: Counts, counts: Counts)
    requires Copied(req, {}, counts)
    ensures counts == req
  {
  }

  /** doAlloc: the same counts for every workload, or nothing when some product runs out. */
  method DoAlloc(capacity: Counts, usage: Counts, deployCount: nat, req: Counts) returns (r: Result<seq<Counts>>)
    requires ValidRequest(req)
    ensures r.Ok? <==> Allows(Available(capacity, usage), req, deployCount)
    ensures r.Ok? <==> StaysWithin(capacity, usage, req, deployCount)
    ensures r.Ok? ==> r.value == seq(deployCount, i => req)
    ensures r.Err? ==> r.error == ErrInsufficientResource
  {
    AllowsIff(capacity, usage, req, deployCount);
    ghost var available := Available(capacity, usage);
    var left := Shift(capacity, usage, -1);
    var workloads: seq<Counts> := [];
    for n := 0 to deployCount
      invariant Drawn(available, req, n, req.Keys, left)
      invariant Allows(available, req, n)
      invariant |workloads| == n && forall i :: 0 <= i < n ==> workloads[i] == req
    {
      var short, counts;
      short, left, counts := AllocateOne(available, left, req, n);
      if short.Some? {
        MoreNeeded(available, req, n + 1, deployCount, short.value);
        return Err(ErrInsufficientResource);
      }
      NextRound(available, req, n, left);
      workloads := workloads + [counts];
    }
    r := Ok(workloads);
  }

  lemma NextDrawn(available: Counts, req: Counts, n: nat, rest: set<string>, left: Counts, prod: string)
    requires Drawn(available, req, n, rest, left) && prod in rest && rest <= req.Keys
    ensures (prod in left && left[prod] >= req[prod]) <==> Has(available, prod, req[prod], n + 1)
    ensures prod in left ==> Drawn(available, req, n, rest - {prod}, left[prod := left[prod] - req[prod]])
  {
    assert (n + 1) * req[prod] == n * req[prod] + req[prod];
    if prod in left {
      var left' := left[prod := left[prod] - req[prod]];
      forall p | p in left' ensures left'[p] == LeftAfter(available, req, n, rest - {prod}, p) {
        assert p != prod ==> left'[p] == left[p];
      }
    }
  }

  lemma NextRound(available: Counts, req: Counts, n: nat, left: Counts)
    requires Drawn(available, req, n, {}, left)
    ensures Drawn(available, req, n + 1, req.Keys, left)
  {
  }

  /** A product that does not allow n does not allow more. */
  lemma MoreNeeded(available: Counts, req: Counts, n: nat, m: nat, prod: string)
    requires prod in req && req[prod] > 0 && 0 < n <= m && !Has(available, prod, req[prod], n)
    ensures !Allows(available, req, m)
  {
    assert n * req[prod] <= m * req[prod];
    assert !Has(available, prod, req[prod], m);
  }

  // ---- The capacity formula

  /** Integer division towards zero by a positive count. */
  function Quotient(a: int, b: int): int
    requires b > 0
  {
    if a >= 0 then a / b else -(-a / b)
  }

  lemma QuotientFits(a: int, b: int, n: nat)
    requires b > 0 && n > 0
    ensures n <= Quotient(a, b) <==> n * b <= a
  {
    if a >= 0 {
      var q := a / b;
      assert a == q * b + a % b;
      if n <= q {
        assert n * b <= q * b;
      } else {
        assert n * b >= (q + 1) * b;
      }
    } else {
      assert -a / b >= 0 && n * b > 0;
    }
  }

  /** The sum of all counts. */
  method Count(m: Counts) returns (total: int)
    ensures total == TotalOf(m, m.Keys)
    ensures (forall p :: p in m ==> m[p] > 0) ==> (total > 0 <==> m != map[]) && total >= 0
  {
    total := 0;
    var rest := m.Keys;
    while rest != {}
      invariant rest <= m.Keys && total == TotalOf(m, m.Keys) - TotalOf(m, rest)
      invariant (forall p :: p in m ==> m[p] > 0) ==> total >= 0 && (total > 0 <==> rest != m.Keys)
      decreases |rest|
    {
      var p :| p in rest;
      TotalWithout(m, rest, p);
      rest := rest - {p};
      total := total + m[p];
    }
    assert m != map[] ==> m.Keys != {};
  }

  /** The counts of some products added up. */
  ghost function TotalOf(m: Counts, products: set<string>): int {
    if products == {} then 0 else
      var p :| p in products;
      CountOf(m, p) + TotalOf(m, products - {p})
  }

  /** The total does not depend on the order of the products. */
  lemma {:induction false} TotalWithout(m: Counts, products: set<string>, p: string)
    requires p in products
    ensures TotalOf(m, products) == CountOf(m, p) + TotalOf(m, products - {p})
    decreases |products|
  {
    var q :| q in products && TotalOf(m, products) == CountOf(m, q) + TotalOf(m, products - {q});
    if q != p {
      TotalWithout(m, products - {q}, p);
      TotalWithout(m, products - {p}, q);
      assert products - {q} - {p} == products - {p} - {q};
    }
  }

  /** doGetNodeDeployCapacity: divides per product in any order of the request's map, and stops early at zero or below. */
  method GetNodeDeployCapacity(capacity: Counts, usage: Counts, req: Counts) returns (r: int)
    requires ValidRequest(req)
    ensures forall n: nat :: 1 <= n <= MAX_CAPACITY ==> (n <= r <==> StaysWithin(capacity, usage, req, n))
  {
    r := DivideCapacity(capacity, usage, req);
    forall n: nat | 1 <= n <= MAX_CAPACITY ensures n <= r <==> StaysWithin(capacity, usage, req, n) {
      AllowsIff(capacity, usage, req, n);
    }
  }

  /** Divides what is available product by product. */
  method DivideCapacity(capacity: Counts, usage: Counts, req: Counts) returns (r: int)
    requires ValidRequest(req)
    ensures forall n: nat :: 1 <= n <= MAX_CAPACITY ==> (n <= r <==> Allows(Available(capacity, usage), req, n))
  {
    r := MAX_CAPACITY;
    var total := Count(req);
    if total > 0 {
      ghost var available := Available(capacity, usage);
      var left := Shift(capacity, usage, -1);
      var rest := req.Keys;
      while rest != {}
        invariant rest <= req.Keys && left == available && r <= MAX_CAPACITY
        invariant forall n: nat :: 1 <= n <= MAX_CAPACITY ==> (n <= r <==> AllowsBut(available, req, n, rest))
        decreases |rest|
      {
        var prod :| prod in rest;
        var count := CountOf(left, prod);
        var quotient := Quotient(count, req[prod]);
        forall n: nat | 1 <= n ensures n <= quotient <==> Has(available, prod, req[prod], n) {
          QuotientFits(count, req[prod], n);
          assert n * req[prod] > 0;
        }
        forall n: nat ensures AllowsBut(available, req, n, rest - {prod}) <==>
            AllowsBut(available, req, n, rest) && Has(available, prod, req[prod], n) {
        }
        rest := rest - {prod};
        r := if quotient < r then quotient else r;
        if r <= 0 {
          forall n: nat | 1 <= n <= MAX_CAPACITY ensures !Allows(available, req, n) {
            assert !AllowsBut(available, req, n, rest);
          }
          return;
        }
      }
      forall n: nat | 1 <= n <= MAX_CAPACITY ensures n <= r <==> Allows(available, req, n) {
        assert AllowsBut(available, req, n, {}) <==> Allows(available, req, n);
      }
    }
  }

  /** n times the request is available, looking only at the products outside rest. */
  ghost predicate AllowsBut(available: Counts, req: Counts, n: nat, rest: set<string>) {
    forall p :: p in req && p !in rest ==> Has(available, p, req[p], n)
  }

  // ---- Usage of workloads

  function CountAt(p: string): Counts -> int {
    (m: Counts) => CountOf(m, p)
  }

  function Moved(usage: Counts, ws: seq<Counts>, sign: int): Counts {
    if ws == [] then usage else Shifted(Moved(usage, ws[..|ws| - 1], sign), ws[|ws| - 1], sign)
  }

  /** calculateNodeResource as a value; a request goes before a node resource, and either before workloads. */
  function Calculated(req: Option<Counts>, resource: Option<Counts>, origin: Option<Counts>, ws: seq<Counts>,
      delta: bool, incr: bool): Counts {
    var rewrite := origin.None? || !delta;
    var start := if rewrite then map[] else origin.value;
    var sign := if incr || rewrite then 1 else -1;
    if req.Some? then Shifted(start, req.value, sign)
    else if resource.Some? then Shifted(start, resource.value, sign)
    else Moved(start, ws, sign)
  }

  method CalculateNodeResource(req: Option<Counts>, resource: Option<Counts>, origin: Option<Counts>, ws: seq<Counts>,
      delta: bool, incr: bool)
      returns (r: Counts)
    ensures r == Calculated(req, resource, origin, ws, delta, incr)
    ensures delta && origin.Some? && incr ==> forall p :: CountOf(r, p) == CountOf(origin.value, p) + Amount(req, resource, ws, p)
    ensures delta && origin.Some? && !incr ==> forall p :: CountOf(r, p) == CountOf(origin.value, p) - Amount(req, resource, ws, p)
    ensures !delta || origin.None? ==> forall p :: CountOf(r, p) == Amount(req, resource, ws, p)
  {
    forall p: string {
      CalculatedCount(req, resource, origin, ws, delta, incr, p);
    }
    hide Amount, CountOf;
    var sign := if incr then 1 else -1;
    if origin.None? || !delta {
      r, sign := map[], 1;
    } else {
      r := origin.value;
    }
    var nodeResource := if req.Some? then req else resource;
    if nodeResource.Some? {
      r := Shift(r, nodeResource.value, sign);
      return;
    }
    ghost var start := r;
    for i := 0 to |ws|
      invariant r == Moved(start, ws[..i], sign)
    {
      assert ws[..i + 1][..i] == ws[..i];
      r := Shift(r, ws[i], sign);
    }
    assert ws[..|ws|] == ws;
  }

  /** Usage moves by what the workloads hold of every product. */
  lemma {:induction false} MovedCounts(usage: Counts, ws: seq<Counts>, sign: int, p: string)
    requires sign == 1 || sign == -1
    ensures CountOf(Moved(usage, ws, sign), p) == CountOf(usage, p) + sign * SumBy(CountAt(p), ws)
  {
    if ws != [] {
      MovedCounts(usage, ws[..|ws| - 1], sign, p);
    }
  }

  /** What a request, else a node resource, else the workloads together count of a product. */
  function Amount(req: Option<Counts>, resource: Option<Counts>, ws: seq<Counts>, p: string): int {
    if req.Some? then CountOf(req.value, p)
    else if resource.Some? then CountOf(resource.value, p)
    else SumBy(CountAt(p), ws)
  }

  /** A usage written anew counts what is given, whatever incr says; otherwise every count of the origin moves up or down by it. */
  lemma CalculatedCount(req: Option<Counts>, resource: Option<Counts>, origin: Option<Counts>, ws: seq<Counts>,
      delta: bool, incr: bool, p: string)
    ensures CountOf(Calculated(req, resource, origin, ws, delta, incr), p) ==
      if !delta || origin.None? then Amount(req, resource, ws, p)
      else CountOf(origin.value, p) + if incr then Amount(req, resource, ws, p) else -Amount(req, resource, ws, p)
  {
    var start := if delta && origin.Some? then origin.value else map[];
    var sign := if incr || !delta || origin.None? then 1 else -1;
    if req.Some? {
      ShiftedCount(start, req.value, sign, p);
    } else if resource.Some? {
      ShiftedCount(start, resource.value, sign, p);
    } else {
      MovedCounts(start, ws, sign, p);
    }
  }

  /** Releasing what was deployed gives the usage back, product by product. */
  lemma DeployRelease(usage: Counts, ws: seq<Counts>, p: string)
    ensures CountOf(Moved(Moved(usage, ws, 1), ws, -1), p) == CountOf(usage, p)
  {
    MovedCounts(usage, ws, 1, p);
    MovedCounts(Moved(usage, ws, 1), ws, -1, p);
  }

  // ---- Reallocation

  /** MergeFromResource: the origin moved by a request that may ask for less, without what is no longer positive. */
  function Merged(req: Counts, origin: Counts): (r: Counts)
    ensures ValidRequest(r)
    ensures forall p :: CountOf(r, p) == if CountOf(req, p) + CountOf(origin, p) > 0 then CountOf(req, p) + CountOf(origin, p) else 0
  {
    var sum := Shifted(req, origin, 1);
    map p | p in sum && sum[p] > 0 :: sum[p]
  }

  /** r is sum without what is not positive outside rest. */
  ghost predicate Pruned(sum: Counts, rest: set<string>, r: Counts) {
    && r.Keys == (set p | p in sum.Keys && (p in rest || sum[p] > 0))
    && forall p :: p in r ==> r[p] == sum[p]
  }

  lemma PrunedNext(sum: Counts, rest: set<string>, r: Counts, prod: string)
    requires Pruned(sum, rest, r) && prod in rest && prod in sum
    ensures prod in r && r[prod] == sum[prod]
    ensures Pruned(sum, rest - {prod}, if r[prod] <= 0 then r - {prod} else r)
  {
  }

  /** MergeFromResource, deleting in any order of the map. */
  method MergeFromResource(req: Counts, origin: Counts) returns (r: Counts)
    ensures r == Merged(req, origin)
  {
    var sum := Shift(req, origin, 1);
    r := sum;
    var rest := sum.Keys;
    while rest != {}
      invariant rest <= sum.Keys && Pruned(sum, rest, r)
      decreases |rest|
    {
      var prod :| prod in rest;
      PrunedNext(sum, rest, r, prod);
      hide Pruned;
      rest := rest - {prod};
      if r[prod] <= 0 {
        r := r - {prod};
      }
    }
  }

  /** Putting the merged request in the origin's place stays within capacity exactly when the request on top of the usage does. */
  lemma MergedWithin(capacity: Counts, usage: Counts, origin: Counts, req: Counts)
    ensures Allows(Available(capacity, Shifted(usage, origin, -1)), Merged(req, origin), 1) <==>
      forall p :: CountOf(req, p) + CountOf(origin, p) > 0 ==> CountOf(usage, p) + CountOf(req, p) <= CountOf(capacity, p)
  {
    var target, freed := Merged(req, origin), Shifted(usage, origin, -1);
    AllowsIff(capacity, freed, target, 1);
    forall p ensures CountOf(freed, p) == CountOf(usage, p) - CountOf(origin, p) {
      ShiftedCount(usage, origin, -1, p);
    }
    forall p ensures p in target <==> CountOf(req, p) + CountOf(origin, p) > 0 {
      assert p in target ==> CountOf(target, p) == target[p] > 0;
    }
    hide Shifted, Merged, Allows;
    if StaysWithin(capacity, freed, target, 1) {
      forall p | CountOf(req, p) + CountOf(origin, p) > 0 ensures CountOf(usage, p) + CountOf(req, p) <= CountOf(capacity, p) {
        assert p in target && CountOf(target, p) == CountOf(req, p) + CountOf(origin, p);
      }
    } else {
      var p :| p in target && CountOf(freed, p) + target[p] > CountOf(capacity, p);
      assert CountOf(req, p) + CountOf(origin, p) > 0;
    }
  }

  /** The arithmetic of CalculateRealloc: the merged request is allocated once on the node without the origin. */
  method CalculateRealloc(capacity: Counts, usage: Counts, origin: Counts, req: Counts) returns (r: Result<(Counts, Counts)>)
    ensures r.Ok? <==> Allows(Available(capacity, Shifted(usage, origin, -1)), Merged(req, origin), 1)
    ensures r.Ok? <==>
      forall p :: CountOf(req, p) + CountOf(origin, p) > 0 ==> CountOf(usage, p) + CountOf(req, p) <= CountOf(capacity, p)
    ensures r.Ok? ==> r.value == (Merged(req, origin), Shifted(Merged(req, origin), origin, -1))
    ensures r.Err? ==> r.error == ErrInsufficientResource
  {
    MergedWithin(capacity, usage, origin, req);
    var freed := Shift(usage, origin, -1);
    var target := MergeFromResource(req, origin);
    var found := DoAlloc(capacity, freed, 1, target);
    if found.Err? {
      return Err(ErrInsufficientResource);
    }
    assert found.value[0] == target;
    var delta := Shift(found.value[0], origin, -1);
    r := Ok((target, delta));
  }

  /**
   * Committing the delta of an allowed reallocation puts the target in the origin's place, and keeps every product within
   * its capacity.
   */
  lemma ReallocFits(capacity: Counts, usage: Counts, origin: Counts, req: Counts, p: string)
    requires Allows(Available(capacity, Shifted(usage, origin, -1)), Merged(req, origin), 1)
    ensures var after := Shifted(usage, Shifted(Merged(req, origin), origin, -1), 1);
      && CountOf(after, p) == CountOf(usage, p) - CountOf(origin, p) + CountOf(Merged(req, origin), p)
      && (CountOf(usage, p) <= CountOf(capacity, p) && CountOf(origin, p) >= 0 ==> CountOf(after, p) <= CountOf(capacity, p))
  {
    var target := Merged(req, origin);
    var freed := Shifted(usage, origin, -1);
    var delta := Shifted(target, origin, -1);
    ShiftedCount(usage, origin, -1, p);
    ShiftedCount(target, origin, -1, p);
    ShiftedCount(usage, delta, 1, p);
    ShiftedCount(capacity, freed, -1, p);
    assert p in target ==> Has(Available(capacity, freed), p, target[p], 1);
    hide Shifted, Merged;
  }

  lemma ShiftedCount(a: Counts, b: Counts, sign: int, p: string)
    requires sign == 1 || sign == -1
    ensures CountOf(Shifted(a, b, sign), p) == CountOf(a, p) + sign * CountOf(b, p)
  {
  }
}
