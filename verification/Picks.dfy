/** The order in which reallocation comes to the matched monopoly entries, and when it matters. */
module Picks {
  import opened Quantity
  import opened Options
  import opened Bindings
  import opened Disks
  import opened Volumes
  import opened Sums
  import opened Charges
  import opened Passes
  import opened Monopoly
  import opened Planner
  import opened Affinity
  import opened Reallocation

  // ---- The matched monopoly entry looked at first

  /** The devices that ranging over the matched monopoly requests may come to first. */
  ghost predicate Picked(requests: seq<VolumeBinding>, origin: VolumePlan, device: string) {
    exists e :: e in Kept(Classify(requests).mono, origin) && e.device == device
  }

  /** A matched monopoly entry that may be come to first, or anything when there is none. */
  ghost predicate MayPick(requests: seq<VolumeBinding>, origin: VolumePlan, device: string) {
    Kept(Classify(requests).mono, origin) != [] ==> Picked(requests, origin, device)
  }

  /** All matched monopoly requests are on one device. */
  ghost predicate OnePick(requests: seq<VolumeBinding>, origin: VolumePlan) {
    forall d, e :: Picked(requests, origin, d) && Picked(requests, origin, e) ==> d == e
  }

  /** Reallocating comes out the same whichever matched monopoly entry is looked at first. */
  ghost predicate SameForPicks(l: Topology, share: Share, p: Pool, requests: seq<VolumeBinding>, origin: VolumePlan,
      originRequests: seq<VolumeBinding>) {
    forall d, e :: Picked(requests, origin, d) && Picked(requests, origin, e) ==>
      Reallocate(l, share, p, requests, origin, originRequests, d) == Reallocate(l, share, p, requests, origin, originRequests, e)
  }

  /** Reallocating fails whichever matched monopoly entry is looked at first. */
  ghost predicate EveryPickFails(l: Topology, share: Share, p: Pool, requests: seq<VolumeBinding>, origin: VolumePlan,
      originRequests: seq<VolumeBinding>) {
    forall d :: Picked(requests, origin, d) ==> Reallocate(l, share, p, requests, origin, originRequests, d).Err?
  }

  lemma PickedSchedules(requests: seq<VolumeBinding>, origin: VolumePlan, device: string)
    requires Picked(requests, origin, device)
    ensures Classify(requests).mono != [] && NeedSchedule(requests)
  {
    PlanContents.MonoNeedsSchedule(requests);
  }

  /** A successful reallocation puts the first monopoly request on the device that was looked at first. */
  lemma PickShows(l: Topology, share: Share, p: Pool, requests: seq<VolumeBinding>, origin: VolumePlan,
      originRequests: seq<VolumeBinding>, device: string)
    requires Picked(requests, origin, device) && Reallocate(l, share, p, requests, origin, originRequests, device).Ok?
    ensures var d := Reallocate(l, share, p, requests, origin, originRequests, device).value; var n := |Kept(Classify(requests).normal, origin)|;
      n < |d.volumes| && d.volumes[n].device == device
  {
    PickedSchedules(requests, origin, device);
    PlacedShows(l, share, Credit(l, p, Given(origin, originRequests)), Classify(requests), origin, device);
  }

  lemma PlacedShows(l: Topology, share: Share, r: Pool, c: RequestClasses, origin: VolumePlan, device: string)
    requires Kept(c.mono, origin) != [] && c.mono != [] && Recharge(l, share, r, c, origin, device).Ok?
    ensures var d := Recharge(l, share, r, c, origin, device).value; var n := |Kept(c.normal, origin)|;
      n < |d.volumes| && d.volumes[n].device == device
  {
    var mounts, kept := MountEntries(c.mount), Kept(c.normal, origin);
    var group := KeptGroup(l, share, Debit(l, r, mounts + kept), c.mono, origin, device).value;
    assert (kept + group)[|kept|] == group[0] && group[0].device == device;
  }

  /** The two errors of a reallocation do not depend on the entry looked at first. */
  lemma FailsAlike(l: Topology, share: Share, p: Pool, requests: seq<VolumeBinding>, origin: VolumePlan,
      originRequests: seq<VolumeBinding>, d: string, e: string)
    requires Reallocate(l, share, p, requests, origin, originRequests, d).Err?
    requires Reallocate(l, share, p, requests, origin, originRequests, e).Err?
    ensures Reallocate(l, share, p, requests, origin, originRequests, d) == Reallocate(l, share, p, requests, origin, originRequests, e)
  {
    var r := Credit(l, p, Given(origin, originRequests));
    RechargeFails(l, share, r, Classify(requests), origin, d);
    RechargeFails(l, share, r, Classify(requests), origin, e);
    hide Recharge, Releasable, Credit, Given, Classify, NeedSchedule;
  }

  lemma RechargeFails(l: Topology, share: Share, r: Pool, c: RequestClasses, origin: VolumePlan, device: string)
    ensures var f := Recharge(l, share, r, c, origin, device); f.Err? ==> f == Err(ErrInsufficientResource)
  {
    hide Payable, Placed, Debit, MountEntries, Kept, DiskPlan, Added, Schedule, Anew;
  }

  /** The outcome is the same for every first entry exactly when all matched ones share a device, or none of them succeeds. */
  lemma PicksAgree(l: Topology, share: Share, p: Pool, requests: seq<VolumeBinding>, origin: VolumePlan, originRequests: seq<VolumeBinding>)
    ensures SameForPicks(l, share, p, requests, origin, originRequests)
       <==> OnePick(requests, origin) || EveryPickFails(l, share, p, requests, origin, originRequests)
  {
    hide Reallocate, Picked;
    if SameForPicks(l, share, p, requests, origin, originRequests) && !OnePick(requests, origin) {
      var d, e :| Picked(requests, origin, d) && Picked(requests, origin, e) && d != e;
      forall x | Picked(requests, origin, x) ensures Reallocate(l, share, p, requests, origin, originRequests, x).Err? {
        TwoPicksFail(l, share, p, requests, origin, originRequests, x, if x == d then e else d);
      }
    }
    if EveryPickFails(l, share, p, requests, origin, originRequests) {
      forall d, e | Picked(requests, origin, d) && Picked(requests, origin, e)
        ensures Reallocate(l, share, p, requests, origin, originRequests, d) == Reallocate(l, share, p, requests, origin, originRequests, e)
      {
        FailsAlike(l, share, p, requests, origin, originRequests, d, e);
      }
    }
  }

  /** Two devices cannot come out the same and succeed. */
  lemma TwoPicksFail(l: Topology, share: Share, p: Pool, requests: seq<VolumeBinding>, origin: VolumePlan,
      originRequests: seq<VolumeBinding>, d: string, e: string)
    requires Picked(requests, origin, d) && Picked(requests, origin, e) && d != e
    requires Reallocate(l, share, p, requests, origin, originRequests, d) == Reallocate(l, share, p, requests, origin, originRequests, e)
    ensures Reallocate(l, share, p, requests, origin, originRequests, d).Err?
  {
    if Reallocate(l, share, p, requests, origin, originRequests, d).Ok? {
      PickShows(l, share, p, requests, origin, originRequests, d);
      PickShows(l, share, p, requests, origin, originRequests, e);
    }
  }

  /** Without a matched monopoly entry none is looked at. */
  lemma NoPick(l: Topology, share: Share, p: Pool, requests: seq<VolumeBinding>, origin: VolumePlan,
      originRequests: seq<VolumeBinding>, d: string, e: string)
    requires Kept(Classify(requests).mono, origin) == []
    ensures Reallocate(l, share, p, requests, origin, originRequests, d) == Reallocate(l, share, p, requests, origin, originRequests, e)
  {
    hide Finish, KeptGroup, Payable, Credit, Debit, MountEntries, DiskPlan, Given, Releasable;
  }

  /** All monopoly bindings of a plan are on one device. */
  ghost predicate Together(plan: VolumePlan) {
    forall e, f :: e in plan && f in plan && e.binding.RequireScheduleMonopoly() && f.binding.RequireScheduleMonopoly() ==> e.device == f.device
  }

  /** On such a plan there is one device to come to first. */
  lemma TogetherOnePick(requests: seq<VolumeBinding>, origin: VolumePlan)
    requires Together(origin)
    ensures OnePick(requests, origin)
  {
    var mono := Classify(requests).mono;
    KeptIn(mono, origin);
    SortBySizeSorts(OfKind(requests, Mono));
    forall e | e in Kept(mono, origin) ensures exists o :: o in origin && o.binding.RequireScheduleMonopoly() && o.device == e.device {
      var o := Match(origin, e.binding).value;
      assert o in origin && o.binding.MapKey() == e.binding.MapKey();
    }
  }

  /**
   * Whatever order the origin plan and its matched monopoly entries are ranged in, reallocating a plan whose monopoly
   * bindings are on one device comes out the same.
   */
  lemma AnyOrder(l: Topology, share: Share, p: Pool, requests: seq<VolumeBinding>, a: VolumePlan, b: VolumePlan,
      originRequests: seq<VolumeBinding>, d: string, e: string)
    requires DistinctKeys(a) && multiset(a) == multiset(b) && Together(a)
    requires Picked(requests, a, d) && Picked(requests, b, e)
    ensures Reallocate(l, share, p, requests, a, originRequests, d) == Reallocate(l, share, p, requests, b, originRequests, e)
  {
    hide Reallocate, Together, Kept, Classify, DistinctKeys;
    TogetherOnePick(requests, a);
    KeptSame(Classify(requests).mono, a, b);
    assert Picked(requests, a, e) && d == e;
    OriginOrder(l, share, p, requests, a, b, originRequests, d);
  }

  // ---- A plan with two monopoly bindings on two devices

  const NO_QUOTA := Quota(0, 0, 0, 0)
  const FIRST := VolumeBinding("AUTO", "/x", "rwm", 1, NO_QUOTA)
  const SECOND := VolumeBinding("AUTO", "/y", "rwm", 1, NO_QUOTA)
  const NO_DISKS := Topology([], (path: string) => None)

  function SplitPlan(): VolumePlan {
    [Entry(FIRST, "/a", 1), Entry(SECOND, "/b", 1)]
  }

  function Pair(): seq<VolumeBinding> {
    [FIRST, SECOND]
  }

  function GroupOnly(): RequestClasses {
    RequestClasses([], Pair(), [], [])
  }

  function TwoFreed(): Pool {
    Pool([], [Volume("/a", 2), Volume("/b", 2)], [])
  }

  function TwoVolumes(): Pool {
    Pool([], [Volume("/a", 1), Volume("/b", 1)], [])
  }

  lemma PairFacts()
    ensures KindOf(FIRST) == KindOf(SECOND) == Mono && FIRST.MapKey() != SECOND.MapKey()
    ensures FIRST.RequireScheduleMonopoly() && SECOND.RequireScheduleMonopoly()
  {
    assert "AUTO"[0..] == "AUTO" && "rwm"[2] == 'm' && "/x"[1] != "/y"[1];
  }

  lemma TwoMono(a: VolumeBinding, b: VolumeBinding)
    requires KindOf(a) == KindOf(b) == Mono && a.size <= b.size
    ensures Classify([a, b]) == RequestClasses([], [a, b], [], [])
  {
    var reqs := [a, b];
    assert reqs[..1] == [a] && reqs[..1][..0] == [];
    forall k: Kind ensures OfKind(reqs, k) == if k == Mono then reqs else [] {
      assert OfKind([a], k) == if k == Mono then [a] else [];
    }
    assert SortBySize([a]) == [a] && SortBySize(reqs) == reqs;
  }

  lemma PairClasses()
    ensures Classify(Pair()) == GroupOnly()
  {
    PairFacts();
    hide KindOf;
    TwoMono(FIRST, SECOND);
  }

  lemma TwoKept(a: VolumeBinding, b: VolumeBinding, x: string, y: string)
    requires a.MapKey() != b.MapKey()
    ensures Kept([a, b], [Entry(a, x, a.size), Entry(b, y, b.size)]) == [Entry(a, x, a.size), Entry(b, y, b.size)]
  {
    var reqs, plan := [a, b], [Entry(a, x, a.size), Entry(b, y, b.size)];
    assert reqs[..1] == [a] && reqs[..1][..0] == [];
    assert Match(plan, a) == Some(plan[0]);
    assert plan[1..] == [plan[1]] && Match(plan, b) == Some(plan[1]);
    assert Kept([a], plan) == [plan[0]];
  }

  lemma SumOfTwo<T>(f: T -> int, a: T, b: T)
    ensures SumBy(f, [a, b]) == f(a) + f(b)
  {
    SumAppend(f, [a], b);
    SumAppend(f, [], a);
    assert [] + [a] == [a] && [a] + [b] == [a, b];
  }

  lemma PairMatched()
    ensures Kept(Pair(), SplitPlan()) == SplitPlan() && MonoHeld(SplitPlan()) == 2 && TotalSize(Pair()) == 2
  {
    PairFacts();
    hide Kept, Match, SumBy, KindOf;
    TwoKept(FIRST, SECOND, "/a", "/b");
    SumOfTwo(MonoSize(), SplitPlan()[0], SplitPlan()[1]);
    SumOfTwo(SizeAsked(), FIRST, SECOND);
  }

  lemma PairCredited()
    ensures Credit(NO_DISKS, TwoVolumes(), SplitPlan()) == TwoFreed()
  {
    var plan := SplitPlan();
    assert plan[..1] == [Entry(FIRST, "/a", 1)] && plan[..1][..0] == [] && "/a"[1] != "/b"[1];
    forall device ensures BytesOn(plan, device) == (if device == "/a" then 1 else 0) + (if device == "/b" then 1 else 0) {
      assert SumBy(BytesAt(device), plan[..1]) == if device == "/a" then 1 else 0;
    }
    assert CreditVolumes(TwoVolumes().unused, plan) == [Volume("/a", 2), Volume("/b", 2)];
    assert CreditVolumes([], plan) == [];
    assert CreditQuotas(NO_DISKS, [], plan) == [];
  }

  lemma PairGroup(share: Share, device: string)
    requires device == "/a" || device == "/b"
    ensures KeptGroup(NO_DISKS, share, TwoFreed(), Pair(), SplitPlan(), device)
         == Some(MonoGroup(share, Pair(), Volume(device, 2)))
  {
    PairMatched();
    PairNamed(device);
    PairQualified(device);
    hide Pair, SplitPlan, TwoFreed, VolumeNamed, TotalBinding, TotalSize, MonoHeld, MonoGroup, Qualified;
  }

  lemma PairNamed(device: string)
    requires device == "/a" || device == "/b"
    ensures VolumeNamed(AllVolumes(TwoFreed()), device) == Some(Volume(device, 2))
  {
    var vs := [Volume("/a", 2), Volume("/b", 2)];
    assert "/a"[1] != "/b"[1] && [] + vs == vs && vs[1..] == [vs[1]];
  }

  lemma PairQualified(device: string)
    ensures Qualified(NO_DISKS, TwoFreed().quotas, device, TotalBinding(Pair()))
  {
    var reqs := Pair();
    hide SumBy;
    forall m: Meter ensures TotalBinding(reqs).quota.Get(m) == 0 {
      TotalMeter(reqs, m);
      SumZero(MeterAsked(m), reqs);
    }
    EqualByMeter(TotalBinding(reqs).quota, NO_QUOTA);
  }

  /** Reallocating it succeeds whichever of the two is looked at first, and comes out differently. */
  lemma TwoDevicesDiffer(share: Share)
    ensures forall d :: d == "/a" || d == "/b" ==>
      && Picked(Pair(), SplitPlan(), d)
      && Reallocate(NO_DISKS, share, TwoVolumes(), Pair(), SplitPlan(), Pair(), d).Ok?
    ensures !SameForPicks(NO_DISKS, share, TwoVolumes(), Pair(), SplitPlan(), Pair())
  {
    var reqs, plan, p := Pair(), SplitPlan(), TwoVolumes();
    PairClasses();
    PairMatched();
    forall d | d == "/a" || d == "/b" ensures Picked(reqs, plan, d) && Reallocate(NO_DISKS, share, p, reqs, plan, reqs, d).Ok? {
      assert plan[0] in plan && plan[1] in plan;
      PickSucceeds(share, d);
    }
    assert "/a"[1] != "/b"[1];
    hide Reallocate, Picked;
    PicksAgree(NO_DISKS, share, p, reqs, plan, reqs);
    assert Picked(reqs, plan, "/a") && Picked(reqs, plan, "/b");
  }

  lemma PickSucceeds(share: Share, d: string)
    requires d == "/a" || d == "/b"
    ensures Reallocate(NO_DISKS, share, TwoVolumes(), Pair(), SplitPlan(), Pair(), d).Ok?
  {
    hide Recharge, Releasable, Credit, Classify, Given, TwoVolumes, TwoFreed, SplitPlan, GroupOnly, KindOf, Kept;
    var reqs, plan, p := Pair(), SplitPlan(), TwoVolumes();
    PairClasses();
    PairReleasable();
    PairCredited();
    PairRecharged(share, d);
    PairFacts();
    assert FIRST in reqs;
  }

  lemma PairReleasable()
    ensures Given(SplitPlan(), Pair()) == SplitPlan()
    ensures Releasable(NO_DISKS, TwoVolumes(), SplitPlan(), Pair())
  {
    var p := TwoVolumes();
    PairClasses();
    assert [] + SplitPlan() == SplitPlan();
    assert p.unused[0] in p.unused && p.unused[1] in p.unused;
    hide Classify;
    assert MountEntries(Classify(Pair()).mount) == [];
  }

  lemma PairRecharged(share: Share, d: string)
    requires d == "/a" || d == "/b"
    ensures Recharge(NO_DISKS, share, TwoFreed(), GroupOnly(), SplitPlan(), d).Ok?
  {
    PairMatched();
    PairGroup(share, d);
    FreedSolvent();
    assert GroupOnly().mono == Pair() && Pair() != [] && SplitPlan() != [];
    hide Pair, SplitPlan, TwoFreed, GroupOnly, KeptGroup, Kept, Solvent, Recharge, MonoGroup;
    OnlyGroup(NO_DISKS, share, TwoFreed(), GroupOnly(), SplitPlan(), d);
  }

  lemma FreedSolvent()
    ensures Solvent(TwoFreed()) && GroupOnly().normal == GroupOnly().unlimited == GroupOnly().mount == []
  {
  }

  /** When there is nothing but a matched group, reallocation succeeds where the group does. */
  lemma OnlyGroup(l: Topology, share: Share, r: Pool, c: RequestClasses, origin: VolumePlan, device: string)
    requires c.normal == c.unlimited == c.mount == [] && Kept(c.mono, origin) != [] && Solvent(r)
    requires KeptGroup(l, share, r, c.mono, origin, device).Some?
    ensures Recharge(l, share, r, c, origin, device).Ok?
  {
    DebitNil(l, r);
    assert Anew(c, origin) == [];
    assert MountEntries(c.mount) + Kept(c.normal, origin) == [];
    hide KeptGroup, Anew, Schedule, DiskPlan, Added;
  }
}
