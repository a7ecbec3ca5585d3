/** Making one plan after another on what the earlier ones left, until one fails or a bound is met. */
module Repetition {
  import opened Charges
  import opened Disks

  /** Whether all requests were served, and what was charged until then. */
  datatype Pass = Pass(ok: bool, entries: seq<Entry>)

  /** What each plan charged, what a failed last pass charged, and whether there was one. */
  datatype Run = Run(plans: seq<seq<Entry>>, waste: seq<Entry>, stopped: bool)

  /** All that a list of plans charges. */
  function Flat(plans: seq<seq<Entry>>): seq<Entry> {
    if plans == [] then [] else Flat(plans[..|plans| - 1]) + plans[|plans| - 1]
  }

  function Spent(r: Run): seq<Entry> {
    Flat(r.plans) + r.waste
  }

  /** At most bound passes; a failed pass ends the run and keeps its partial charges. */
  ghost function Repeat(l: Topology, p: Pool, once: Pool -> Pass, bound: nat): (r: Run)
    ensures |r.plans| <= bound
    ensures !r.stopped ==> |r.plans| == bound && r.waste == []
  {
    if bound == 0 then Run([], [], false) else
      var r := Repeat(l, p, once, bound - 1);
      if r.stopped then r else
        var o := once(Debit(l, p, Flat(r.plans)));
        if o.ok then Run(r.plans + [o.entries], [], false) else Run(r.plans, o.entries, true)
  }

  lemma FlatAppend(plans: seq<seq<Entry>>, plan: seq<Entry>)
    ensures Flat(plans + [plan]) == Flat(plans) + plan
  {
    assert (plans + [plan])[..|plans|] == plans;
  }

  lemma {:induction false} FlatConcat(a: seq<seq<Entry>>, b: seq<seq<Entry>>)
    ensures Flat(a + b) == Flat(a) + Flat(b)
  {
    if b == [] {
      assert a + b == a;
    } else {
      assert (a + b)[..|a + b| - 1] == a + b[..|b| - 1];
      FlatConcat(a, b[..|b| - 1]);
    }
  }

  ghost predicate StepKeeps(l: Topology, once: Pool -> Pass, keeps: Pool -> bool, q: Pool) {
    keeps(q) ==> keeps(Debit(l, q, once(q).entries))
  }

  /** A property that no pass destroys holds after every run, counting its failed pass or not. */
  lemma {:induction false} RepeatKeeps(l: Topology, p: Pool, once: Pool -> Pass, bound: nat, keeps: Pool -> bool)
    requires keeps(p) && forall q: Pool :: StepKeeps(l, once, keeps, q)
    ensures var r := Repeat(l, p, once, bound);
      keeps(Debit(l, p, Flat(r.plans))) && keeps(Debit(l, p, Spent(r)))
  {
    if bound == 0 {
      DebitNil(l, p);
      assert Spent(Run([], [], false)) == [];
    } else {
      RepeatKeeps(l, p, once, bound - 1, keeps);
      RepeatSpends(l, p, once, bound);
      assert StepKeeps(l, once, keeps, Debit(l, p, Flat(Repeat(l, p, once, bound - 1).plans)));
    }
  }

  /** One more pass spends what that pass charges. */
  lemma RepeatSpends(l: Topology, p: Pool, once: Pool -> Pass, bound: nat)
    requires bound > 0
    ensures var r, r' := Repeat(l, p, once, bound - 1), Repeat(l, p, once, bound);
      var d := Debit(l, p, Flat(r.plans)); var o := once(d);
      && (r.stopped ==> r' == r)
      && (!r.stopped ==> r'.stopped == !o.ok && Spent(r') == Flat(r.plans) + o.entries && Debit(l, p, Spent(r')) == Debit(l, d, o.entries))
      && (!r.stopped && o.ok ==> Flat(r'.plans) == Spent(r') && r'.plans == r.plans + [o.entries])
      && (!r.stopped && !o.ok ==> r'.plans == r.plans)
  {
    var r := Repeat(l, p, once, bound - 1);
    var o := once(Debit(l, p, Flat(r.plans)));
    if !r.stopped {
      FlatAppend(r.plans, o.entries);
      DebitConcat(l, p, Flat(r.plans), o.entries);
    }
  }

  /** Plan i is a successful pass on what the plans before it left. */
  ghost predicate Made(l: Topology, p: Pool, once: Pool -> Pass, plans: seq<seq<Entry>>, i: nat)
    requires i < |plans|
  {
    once(Debit(l, p, Flat(plans[..i]))) == Pass(true, plans[i])
  }

  lemma {:induction false} RepeatPlans(l: Topology, p: Pool, once: Pool -> Pass, bound: nat)
    ensures forall i :: 0 <= i < |Repeat(l, p, once, bound).plans| ==> Made(l, p, once, Repeat(l, p, once, bound).plans, i)
  {
    if bound > 0 {
      RepeatPlans(l, p, once, bound - 1);
      var r, r' := Repeat(l, p, once, bound - 1), Repeat(l, p, once, bound);
      forall i | 0 <= i < |r'.plans| ensures Made(l, p, once, r'.plans, i) {
        var o := once(Debit(l, p, Flat(r.plans)));
        assert o == Pass(o.ok, o.entries);
        if i < |r.plans| {
          assert Made(l, p, once, r.plans, i);
          assert r'.plans[..i] == r.plans[..i];
        } else {
          assert r'.plans[..i] == r.plans;
        }
      }
    }
  }

  /** A run ends before its bound only when the next pass on what is left fails, and keeps what that pass charged. */
  lemma {:induction false} RepeatStops(l: Topology, p: Pool, once: Pool -> Pass, bound: nat)
    ensures var r := Repeat(l, p, once, bound);
      if r.stopped then once(Debit(l, p, Flat(r.plans))) == Pass(false, r.waste) else |r.plans| == bound && r.waste == []
  {
    if bound > 0 {
      RepeatStops(l, p, once, bound - 1);
      var o := once(Debit(l, p, Flat(Repeat(l, p, once, bound - 1).plans)));
      assert o == Pass(o.ok, o.entries);
    }
  }

  /** Worth is not negative, and a successful pass uses some of it. */
  ghost predicate StepUses(l: Topology, once: Pool -> Pass, keeps: Pool -> bool, worth: Pool -> int, q: Pool) {
    keeps(q) ==> worth(q) >= 0 && (once(q).ok ==> worth(Debit(l, q, once(q).entries)) < worth(q))
  }

  /** When every pass uses up some worth, a run makes at most as many plans as there is worth, so it ends. */
  lemma {:induction false} RepeatEnds(l: Topology, p: Pool, once: Pool -> Pass, bound: nat, keeps: Pool -> bool, worth: Pool -> int)
    requires keeps(p) && (forall q: Pool :: StepKeeps(l, once, keeps, q)) && forall q: Pool :: StepUses(l, once, keeps, worth, q)
    ensures var r := Repeat(l, p, once, bound); |r.plans| + worth(Debit(l, p, Flat(r.plans))) <= worth(p)
    ensures bound > worth(p) ==> Repeat(l, p, once, bound).stopped
  {
    hide StepKeeps, StepUses, Debit, Flat;
    RepeatKeeps(l, p, once, bound, keeps);
    WorthLeft(l, once, keeps, worth, Debit(l, p, Flat(Repeat(l, p, once, bound).plans)));
    if bound == 0 {
      DebitNil(l, p);
      assert Flat(Repeat(l, p, once, 0).plans) == [] by { FlatNone(); }
    } else {
      RepeatEnds(l, p, once, bound - 1, keeps, worth);
      RepeatKeeps(l, p, once, bound - 1, keeps);
      OneMoreUses(l, p, once, bound, keeps, worth);
    }
  }

  lemma FlatNone()
    ensures Flat([]) == []
  {
  }

  lemma WorthLeft(l: Topology, once: Pool -> Pass, keeps: Pool -> bool, worth: Pool -> int, q: Pool)
    requires keeps(q) && StepUses(l, once, keeps, worth, q)
    ensures worth(q) >= 0
  {
  }

  lemma OneMoreUses(l: Topology, p: Pool, once: Pool -> Pass, bound: nat, keeps: Pool -> bool, worth: Pool -> int)
    requires bound > 0
    requires var d := Debit(l, p, Flat(Repeat(l, p, once, bound - 1).plans)); keeps(d) && StepUses(l, once, keeps, worth, d)
    requires var r := Repeat(l, p, once, bound - 1); |r.plans| + worth(Debit(l, p, Flat(r.plans))) <= worth(p)
    requires !Repeat(l, p, once, bound - 1).stopped ==> |Repeat(l, p, once, bound - 1).plans| == bound - 1
    ensures var r := Repeat(l, p, once, bound); |r.plans| + worth(Debit(l, p, Flat(r.plans))) <= worth(p)
    ensures !Repeat(l, p, once, bound).stopped ==> |Repeat(l, p, once, bound).plans| == bound
  {
    RepeatSpends(l, p, once, bound);
  }

  /** A smaller bound makes the first of the same plans; a run that failed is every longer run. */
  lemma {:induction false} RepeatPrefix(l: Topology, p: Pool, once: Pool -> Pass, a: nat, b: nat)
    requires a <= b
    ensures var r, s := Repeat(l, p, once, a), Repeat(l, p, once, b);
      && (r.stopped ==> s == r)
      && (!r.stopped ==> |s.plans| >= a && s.plans[..a] == r.plans)
      && (|s.plans| < a ==> s == r)
    decreases b
  {
    if a < b {
      RepeatPrefix(l, p, once, a, b - 1);
    }
  }
}
