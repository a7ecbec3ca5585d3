/** When reallocation succeeds, and what it serves. */
module Serving {
  import opened Quantity
  import opened Options
  import opened Bindings
  import opened Disks
  import opened Volumes
  import opened Sums
  import opened Charges
  import opened Passes
  import opened Monopoly
  import opened Planner
  import opened Affinity
  import opened Reallocation
  import opened AffinityCharges
  import opened Fixpoint

  // ---- A matched monopoly group

  /** The bytes of a monopoly entry. */
  function GroupBytesOf(): Entry -> int {
    (e: Entry) => if Automatic(e.binding.source) && 'm' in e.binding.flags then e.size else 0
  }

  lemma MonoHeldBy(origin: VolumePlan)
    ensures MonoHeld(origin) == SumBy(GroupBytesOf(), origin)
  {
    forall e | e in origin ensures MonoSize()(e) == GroupBytesOf()(e) {
      KindIsAsked(e.binding);
    }
    SumEqual(MonoSize(), GroupBytesOf(), origin);
  }

  /**
   * The origin's monopoly bindings hold as much as the group asks for, the volume of the device has as much free, and its disk
   * has every quota that the group asks for left.
   */
  ghost predicate GroupFits(l: Topology, p: Pool, mono: seq<VolumeBinding>, origin: VolumePlan, device: string) {
    && SumBy(SizeAsked(), mono) <= SumBy(GroupBytesOf(), origin)
    && (exists v :: (v in p.used || v in p.unused) && v.device == device && SumBy(SizeAsked(), mono) <= v.size)
    && match l.Disk(device)
       case None => forall m: Meter :: SumBy(MeterAsked(m), mono) <= 0
       case Some(j) => j < |p.quotas| && forall m: Meter :: SumBy(MeterAsked(m), mono) <= p.quotas[j].Get(m)
  }

  /** The total of a group is qualified on a disk exactly when every meter is. */
  lemma TotalQualified(l: Topology, qs: seq<Quota>, device: string, mono: seq<VolumeBinding>)
    ensures Qualified(l, qs, device, TotalBinding(mono)) <==>
      match l.Disk(device)
      case None => forall m: Meter :: SumBy(MeterAsked(m), mono) <= 0
      case Some(j) => j < |qs| && forall m: Meter :: SumBy(MeterAsked(m), mono) <= qs[j].Get(m)
  {
    var q := TotalBinding(mono).quota;
    forall m: Meter ensures q.Get(m) == SumBy(MeterAsked(m), mono) {
      TotalMeter(mono, m);
    }
    match l.Disk(device)
    case None =>
      assert q.Positive() <==> q.Get(ReadIOPS) > 0 || q.Get(WriteIOPS) > 0 || q.Get(ReadBPS) > 0 || q.Get(WriteBPS) > 0;
    case Some(j) =>
      if j < |qs| {
        LeqByMeter(q, qs[j]);
      }
  }

  /** On a host of distinct devices the volume named is the only one of its device. */
  lemma OnlyNamed(p: Pool, device: string)
    requires Distinct(p.used) && Distinct(p.unused) && Disjoint(p.used, p.unused)
    ensures var found := VolumeNamed(AllVolumes(p), device);
      if found.Some? then forall v :: (v in p.used || v in p.unused) && v.device == device ==> v == found.value
      else forall v :: v in p.used || v in p.unused ==> v.device != device
  {
    var found := VolumeNamed(AllVolumes(p), device);
    forall v | (v in p.used || v in p.unused) && v.device == device ensures found == Some(v) {
      assert v in AllVolumes(p);
      var w := found.value;
      assert w in p.used || w in p.unused;
      SameDevice(p, v, w);
    }
  }

  lemma SameDevice(p: Pool, v: Volume, w: Volume)
    requires Distinct(p.used) && Distinct(p.unused) && Disjoint(p.used, p.unused) && v.device == w.device
    requires (v in p.used || v in p.unused) && (w in p.used || w in p.unused)
    ensures v == w
  {
    assert !(v in p.used && w in p.unused) by {
      assert v in p.used && w in p.unused ==> Apart(v, w);
    }
    assert !(w in p.used && v in p.unused) by {
      assert w in p.used && v in p.unused ==> Apart(w, v);
    }
    var vs := if v in p.used then p.used else p.unused;
    var i :| 0 <= i < |vs| && vs[i] == v;
    var j :| 0 <= j < |vs| && vs[j] == w;
    DistinctAt(vs, i, j);
  }

  /** A matched group stays on the device looked at exactly when it fits there, and then takes the volume whole. */
  lemma GroupKept(l: Topology, share: Share, p: Pool, mono: seq<VolumeBinding>, origin: VolumePlan, device: string)
    requires Distinct(p.used) && Distinct(p.unused) && Disjoint(p.used, p.unused)
    ensures var group := KeptGroup(l, share, p, mono, origin, device); var v := VolumeNamed(AllVolumes(p), device);
      && (group.Some? <==> GroupFits(l, p, mono, origin, device))
      && (group.Some? ==> v.Some? && group.value == MonoGroup(share, mono, v.value))
  {
    MonoHeldBy(origin);
    OnlyNamed(p, device);
    TotalQualified(l, p.quotas, device, mono);
    assert forall v :: v in p.used || v in p.unused <==> v in AllVolumes(p);
    hide Qualified, TotalBinding, MonoGroup, Distinct, Disjoint;
  }

  // ---- When reallocation succeeds

  /** b has an entry of its source, destination and flags in the origin plan. */
  ghost predicate Matched(origin: VolumePlan, b: VolumeBinding) {
    exists e :: e in origin && e.binding.MapKey() == b.MapKey()
  }

  lemma {:induction false} KeptNone(reqs: seq<VolumeBinding>, origin: VolumePlan)
    ensures Kept(reqs, origin) == [] <==> forall b :: b in reqs ==> !Matched(origin, b)
  {
    if reqs != [] {
      var n := |reqs| - 1;
      assert reqs == reqs[..n] + [reqs[n]];
      KeptNone(reqs[..n], origin);
      assert Matched(origin, reqs[n]) <==> Match(origin, reqs[n]).Some?;
    }
  }

  /** What is scheduled anew: unmatched normal and unlimited requests, and the monopoly requests when none of them is matched. */
  lemma AnewAre(c: RequestClasses, origin: VolumePlan, b: VolumeBinding)
    ensures b in Anew(c, origin) <==>
      || (b in c.normal && !Matched(origin, b))
      || (b in c.mono && forall x :: x in c.mono ==> !Matched(origin, x))
      || (b in c.unlimited && !Matched(origin, b))
  {
    UnmatchedIn(c.normal, origin);
    UnmatchedIn(c.mono, origin);
    UnmatchedIn(c.unlimited, origin);
    KeptNone(c.mono, origin);
    assert forall x :: Matched(origin, x) <==> Match(origin, x).Some?;
    hide Match, Unmatched, Kept, Matched;
  }

  /** The host without the origin plan and the old mount quota. */
  function Freed(l: Topology, p: Pool, origin: VolumePlan, originRequests: seq<VolumeBinding>): Pool {
    Credit(l, p, Given(origin, originRequests))
  }

  /** What is charged first: the mounts, and the matched normal requests on the devices they were on. */
  function Before(c: RequestClasses, origin: VolumePlan): seq<Entry> {
    MountEntries(c.mount) + Kept(c.normal, origin)
  }

  /** The group on the whole volume of the device, when a monopoly request is matched. */
  function GroupAt(share: Share, p: Pool, c: RequestClasses, origin: VolumePlan, device: string): VolumePlan {
    match VolumeNamed(AllVolumes(p), device)
    case None => []
    case Some(v) => if forall b :: b in c.mono ==> Match(origin, b).None? then [] else MonoGroup(share, c.mono, v)
  }

  /**
   * What reallocation needs: every origin entry can be given back; the host without the origin pays for the mounts and the
   * matched normal requests; a matched group fits the volume of the device then; and the scheduler finds a plan for whatever
   * is to be scheduled anew on what is left.
   */
  ghost predicate Serviceable(l: Topology, share: Share, p: Pool, requests: seq<VolumeBinding>, origin: VolumePlan,
      originRequests: seq<VolumeBinding>, device: string) {
    var c := Classify(requests);
    var d := Debit(l, Freed(l, p, origin, originRequests), Before(c, origin));
    && Releasable(l, p, origin, originRequests)
    && Payable(l, Freed(l, p, origin, originRequests), Before(c, origin))
    && ((exists b :: b in c.mono && Matched(origin, b)) ==> GroupFits(l, d, c.mono, origin, device))
    && (Anew(c, origin) != [] ==>
          Schedule(l, share, Debit(l, d, GroupAt(share, d, c, origin, device)), Anew(c, origin), 1, Planning) != [])
  }

  /** Matched normal requests and the matched group are placed exactly when the group fits. */
  lemma PlacedIff(l: Topology, share: Share, d: Pool, c: RequestClasses, origin: VolumePlan, device: string)
    requires Distinct(d.used) && Distinct(d.unused) && Disjoint(d.used, d.unused)
    ensures var placed := Placed(l, share, d, c, origin, device);
      && (placed.Some? <==> ((exists b :: b in c.mono && Matched(origin, b)) ==> GroupFits(l, d, c.mono, origin, device)))
      && (placed.Some? ==> placed.value == Kept(c.normal, origin) + GroupAt(share, d, c, origin, device))
  {
    KeptNone(c.mono, origin);
    GroupKept(l, share, d, c.mono, origin, device);
    assert forall x :: Matched(origin, x) <==> Match(origin, x).Some?;
    assert Kept(c.normal, origin) + [] == Kept(c.normal, origin);
    hide KeptGroup, GroupFits, Match, Kept, Distinct, Disjoint, MonoGroup;
  }

  lemma StillDistinct(l: Topology, r: Pool, es: seq<Entry>)
    requires Distinct(r.used) && Distinct(r.unused) && Disjoint(r.used, r.unused)
    ensures var d := Debit(l, r, es); Distinct(d.used) && Distinct(d.unused) && Disjoint(d.used, d.unused)
  {
    DebitShape(r, es);
  }

  /** Recharging succeeds exactly when all this is so. */
  lemma RechargeIff(l: Topology, share: Share, r: Pool, c: RequestClasses, origin: VolumePlan, device: string)
    requires Distinct(r.used) && Distinct(r.unused) && Disjoint(r.used, r.unused)
    ensures var before := Before(c, origin); var d := Debit(l, r, before);
      Recharge(l, share, r, c, origin, device).Ok? <==>
        && Payable(l, r, before)
        && ((exists b :: b in c.mono && Matched(origin, b)) ==> GroupFits(l, d, c.mono, origin, device))
        && (Anew(c, origin) != [] ==>
              Schedule(l, share, Debit(l, d, GroupAt(share, d, c, origin, device)), Anew(c, origin), 1, Planning) != [])
  {
    hide Payable, GroupFits, Placed, Schedule, Debit, Kept, Anew, MountEntries, Matched, GroupAt, DiskPlan, Added, Distinct, Disjoint;
    var before := Before(c, origin);
    var d := Debit(l, r, before);
    var group := GroupAt(share, d, c, origin, device);
    StillDistinct(l, r, before);
    PlacedIff(l, share, d, c, origin, device);
    DebitConcat(l, r, before, group);
    assert MountEntries(c.mount) + (Kept(c.normal, origin) + group) == before + group;
  }

  /** Reallocation succeeds exactly when the requests are serviceable, whatever they changed. */
  lemma ReallocatesIff(l: Topology, share: Share, p: Pool, requests: seq<VolumeBinding>, origin: VolumePlan,
      originRequests: seq<VolumeBinding>, device: string)
    requires NeedSchedule(requests) && Good(l, p)
    ensures Reallocate(l, share, p, requests, origin, originRequests, device).Ok?
       <==> Serviceable(l, share, p, requests, origin, originRequests, device)
  {
    CreditShape(p, Given(origin, originRequests));
    RechargeIff(l, share, Freed(l, p, origin, originRequests), Classify(requests), origin, device);
    hide Recharge, Payable, Releasable, Good, Distinct, Disjoint, Credit, Given, Schedule, GroupFits, Anew, GroupAt, Before, Debit;
  }

  /** When every request for a volume is matched, nothing is scheduled: what the host has free decides. */
  lemma GrownInPlace(l: Topology, share: Share, p: Pool, requests: seq<VolumeBinding>, origin: VolumePlan,
      originRequests: seq<VolumeBinding>, device: string)
    requires NeedSchedule(requests) && Good(l, p)
    requires forall b :: b in requests && b.RequireSchedule() ==> Matched(origin, b)
    ensures var c := Classify(requests); var r := Freed(l, p, origin, originRequests);
      Reallocate(l, share, p, requests, origin, originRequests, device).Ok? <==>
        && Releasable(l, p, origin, originRequests)
        && Payable(l, r, Before(c, origin))
        && (c.mono != [] ==> GroupFits(l, Debit(l, r, Before(c, origin)), c.mono, origin, device))
  {
    var c := Classify(requests);
    ReallocatesIff(l, share, p, requests, origin, originRequests, device);
    SortBySizeSorts(OfKind(requests, Normal));
    SortBySizeSorts(OfKind(requests, Mono));
    forall b | b in c.normal || b in c.mono || b in c.unlimited ensures Matched(origin, b) {
      assert b in requests && KindOf(b) != Mount;
    }
    assert c.mono != [] ==> c.mono[0] in c.mono;
    var need := Anew(c, origin);
    if need != [] {
      AnewAre(c, origin, need[0]);
    }
    hide Classify, Matched, GroupFits, Payable, Releasable, Reallocate, Before, Freed, Anew, Schedule;
  }

  // ---- What it serves

  /** The bindings of a scheduled plan are the requests it was scheduled for. */
  lemma ScheduledBindings(l: Topology, share: Share, p: Pool, need: seq<VolumeBinding>)
    requires Good(l, p) && UniqueSlots(l.slots) && ValidRequests(need) && Classify(need).mount == [] && NeedSchedule(need)
    requires Schedule(l, share, p, need, 1, Planning) != []
    ensures multiset(BindingsOf(Schedule(l, share, p, need, 1, Planning)[0].volumes)) == multiset(need)
  {
    var c := Classify(need);
    var d := Schedule(l, share, p, need, 1, Planning)[0];
    var n, v, u := PlanInParts(l, share, p, need, 1, Planning, 0);
    hide *;
    PartsBindings(l, share, c, d, n, v, u);
    NoMountParts(need);
  }

  lemma NoMountParts(reqs: seq<VolumeBinding>)
    requires Classify(reqs).mount == []
    ensures var c := Classify(reqs); multiset(c.normal + c.mono + c.unlimited) == multiset(reqs)
  {
    ClassifyPartitions(reqs);
    var c := Classify(reqs);
    assert multiset(c.normal + c.mono + c.unlimited) == multiset(c.normal) + multiset(c.mono) + multiset(c.unlimited);
  }

  lemma PartsBindings(l: Topology, share: Share, c: RequestClasses, d: Deployment, n: VolumePlan, v: Volume, u: VolumePlan)
    requires InParts(l, share, c, d, n, v, u)
    ensures BindingsOf(d.volumes) == c.normal + c.mono + c.unlimited
  {
    var g := MonoGroup(share, c.mono, v);
    BindingsConcat(n + g, u);
    BindingsConcat(n, g);
    assert BindingsOf(n) == c.normal && BindingsOf(g) == c.mono && BindingsOf(u) == c.unlimited;
  }

  /** Every scheduled entry but those of a group has its binding's own size. */
  lemma ScheduledSizes(l: Topology, share: Share, p: Pool, need: seq<VolumeBinding>)
    requires Good(l, p) && UniqueSlots(l.slots) && ValidRequests(need) && NeedSchedule(need)
    requires Schedule(l, share, p, need, 1, Planning) != []
    ensures forall e :: e in Schedule(l, share, p, need, 1, Planning)[0].volumes && e.binding !in Classify(need).mono ==>
      e.size == e.binding.size
  {
    hide *;
    var n, v, u := PlanInParts(l, share, p, need, 1, Planning, 0);
    PartsSized(l, share, Classify(need), Schedule(l, share, p, need, 1, Planning)[0], n, v, u);
  }

  lemma PartsSized(l: Topology, share: Share, c: RequestClasses, d: Deployment, n: VolumePlan, v: Volume, u: VolumePlan)
    requires InParts(l, share, c, d, n, v, u)
    ensures forall e :: e in d.volumes && e.binding !in c.mono ==> e.size == e.binding.size
  {
    hide HoldsFor, OnDisks;
    var g := MonoGroup(share, c.mono, v);
    forall e | e in g ensures e.binding in c.mono {
      var k :| 0 <= k < |g| && g[k] == e;
    }
    assert forall e :: e in d.volumes ==> e in n || e in g || e in u;
  }

  /** A matched request is kept on the device of its origin entry, with its own size. */
  lemma {:induction false} KeptHas(reqs: seq<VolumeBinding>, origin: VolumePlan, b: VolumeBinding, e: Entry)
    requires DistinctKeys(origin) && b in reqs && e in origin && e.binding.MapKey() == b.MapKey()
    ensures Entry(b, e.device, b.size) in Kept(reqs, origin)
  {
    var n := |reqs| - 1;
    assert reqs == reqs[..n] + [reqs[n]];
    if b in reqs[..n] {
      KeptHas(reqs[..n], origin, b, e);
    } else {
      var m := Match(origin, b).value;
      var i :| 0 <= i < |origin| && origin[i] == e;
      var j :| 0 <= j < |origin| && origin[j] == m;
      assert i == j;
    }
  }

  /** What is scheduled anew of a reallocation. */
  ghost function Scheduled(l: Topology, share: Share, q: Pool, need: seq<VolumeBinding>): VolumePlan {
    if need == [] then [] else
      var ds := Schedule(l, share, q, need, 1, Planning);
      if ds == [] then [] else ds[0].volumes
  }

  lemma PlacedParts(l: Topology, share: Share, r: Pool, c: RequestClasses, origin: VolumePlan, device: string)
    requires Distinct(r.used) && Distinct(r.unused) && Disjoint(r.used, r.unused)
    requires Recharge(l, share, r, c, origin, device).Ok?
    ensures var before := Before(c, origin); var d := Debit(l, r, before); var group := GroupAt(share, d, c, origin, device);
      && Payable(l, r, before) && Placed(l, share, d, c, origin, device) == Some(Kept(c.normal, origin) + group)
      && MountEntries(c.mount) + (Kept(c.normal, origin) + group) == before + group
  {
    hide Payable, GroupFits, Placed, Finish, Kept, MountEntries, GroupAt, DiskPlan, Added, Distinct, Disjoint, Matched;
    DebitShape(r, Before(c, origin));
    PlacedIff(l, share, Debit(l, r, Before(c, origin)), c, origin, device);
  }

  lemma RechargeParts(l: Topology, share: Share, r: Pool, c: RequestClasses, origin: VolumePlan, device: string)
    requires Distinct(r.used) && Distinct(r.unused) && Disjoint(r.used, r.unused)
    requires Recharge(l, share, r, c, origin, device).Ok?
    ensures var d := Debit(l, r, Before(c, origin)); var group := GroupAt(share, d, c, origin, device);
      Recharge(l, share, r, c, origin, device).value.volumes
        == Kept(c.normal, origin) + group + Kept(c.unlimited, origin) + Scheduled(l, share, Debit(l, d, group), Anew(c, origin))
  {
    hide Payable, GroupFits, Placed, Schedule, Debit, Kept, Anew, MountEntries, Matched, GroupAt, DiskPlan, Added, Distinct, Disjoint;
    var before := Before(c, origin);
    var group := GroupAt(share, Debit(l, r, before), c, origin, device);
    PlacedParts(l, share, r, c, origin, device);
    DebitConcat(l, r, before, group);
    var all := Kept(c.normal, origin) + group + Kept(c.unlimited, origin);
    assert all + [] == all;
  }

  /** What a reallocated plan serves: every request for a volume once, matched ones where they were. */
  ghost predicate Serves(share: Share, d: Pool, c: RequestClasses, origin: VolumePlan, device: string, plan: VolumePlan) {
    && multiset(BindingsOf(plan)) == multiset(c.normal + c.mono + c.unlimited)
    && (forall b, e :: (b in c.normal || b in c.unlimited) && e in origin && e.binding.MapKey() == b.MapKey() ==>
          Entry(b, e.device, b.size) in plan)
    && (forall e :: e in plan && e.binding !in c.mono ==> e.size == e.binding.size)
    && (forall e :: e in GroupAt(share, d, c, origin, device) ==> e in plan)
  }

  /** The group's bindings and what is scheduled of the monopoly requests are all of these. */
  lemma MonoServed(share: Share, d: Pool, c: RequestClasses, origin: VolumePlan, device: string)
    requires (exists b :: b in c.mono && Matched(origin, b)) ==> VolumeNamed(AllVolumes(d), device).Some?
    ensures multiset(BindingsOf(GroupAt(share, d, c, origin, device)))
      + multiset(if Kept(c.mono, origin) == [] then Unmatched(c.mono, origin) else []) == multiset(c.mono)
  {
    KeptNone(c.mono, origin);
    KeptPartition(c.mono, origin);
    assert forall x :: Matched(origin, x) <==> Match(origin, x).Some?;
    var group := GroupAt(share, d, c, origin, device);
    if Kept(c.mono, origin) == [] {
      assert group == [] && BindingsOf(group) == [];
      assert BindingsOf(Kept(c.mono, origin)) == [];
    } else {
      assert BindingsOf(group) == c.mono;
    }
  }

  lemma PartsServed(share: Share, d: Pool, c: RequestClasses, origin: VolumePlan, device: string, rest: VolumePlan)
    requires (exists b :: b in c.mono && Matched(origin, b)) ==> VolumeNamed(AllVolumes(d), device).Some?
    requires multiset(BindingsOf(rest)) == multiset(Anew(c, origin))
    ensures var plan := Kept(c.normal, origin) + GroupAt(share, d, c, origin, device) + Kept(c.unlimited, origin) + rest;
      multiset(BindingsOf(plan)) == multiset(c.normal + c.mono + c.unlimited)
  {
    hide GroupAt, Kept, Unmatched, Matched, BindingsOf, VolumeNamed, AllVolumes;
    var n, g, u := Kept(c.normal, origin), GroupAt(share, d, c, origin, device), Kept(c.unlimited, origin);
    KeptPartition(c.normal, origin);
    KeptPartition(c.unlimited, origin);
    MonoServed(share, d, c, origin, device);
    BindingsConcat(n + g + u, rest);
    BindingsConcat(n + g, u);
    BindingsConcat(n, g);
    var mono := if Kept(c.mono, origin) == [] then Unmatched(c.mono, origin) else [];
    assert multiset(Anew(c, origin))
      == multiset(Unmatched(c.normal, origin)) + multiset(mono) + multiset(Unmatched(c.unlimited, origin));
    assert multiset(c.normal + c.mono + c.unlimited) == multiset(c.normal) + multiset(c.mono) + multiset(c.unlimited);
    assert multiset(BindingsOf(n + g + u + rest))
      == multiset(BindingsOf(n)) + multiset(BindingsOf(g)) + multiset(BindingsOf(u)) + multiset(BindingsOf(rest));
  }

  lemma GroupAtMono(share: Share, d: Pool, c: RequestClasses, origin: VolumePlan, device: string)
    ensures forall e :: e in GroupAt(share, d, c, origin, device) ==> e.binding in c.mono
  {
    var g := GroupAt(share, d, c, origin, device);
    forall e | e in g ensures e.binding in c.mono {
      var k :| 0 <= k < |g| && g[k] == e;
    }
  }

  lemma PartsSizes(share: Share, d: Pool, c: RequestClasses, origin: VolumePlan, device: string, rest: VolumePlan)
    requires DistinctKeys(origin) && forall e :: e in rest && e.binding !in c.mono ==> e.size == e.binding.size
    ensures var plan := Kept(c.normal, origin) + GroupAt(share, d, c, origin, device) + Kept(c.unlimited, origin) + rest;
      && (forall b, e :: (b in c.normal || b in c.unlimited) && e in origin && e.binding.MapKey() == b.MapKey() ==>
            Entry(b, e.device, b.size) in plan)
      && (forall e :: e in plan && e.binding !in c.mono ==> e.size == e.binding.size)
      && (forall e :: e in GroupAt(share, d, c, origin, device) ==> e in plan)
  {
    KeptIn(c.normal, origin);
    KeptIn(c.unlimited, origin);
    GroupAtMono(share, d, c, origin, device);
    forall b, e | (b in c.normal || b in c.unlimited) && e in origin && e.binding.MapKey() == b.MapKey()
      ensures Entry(b, e.device, b.size) in Kept(c.normal, origin) || Entry(b, e.device, b.size) in Kept(c.unlimited, origin)
    {
      if b in c.normal {
        KeptHas(c.normal, origin, b, e);
      } else {
        KeptHas(c.unlimited, origin, b, e);
      }
    }
    hide Kept, GroupAt, DistinctKeys, Match;
  }

  /** What is scheduled anew serves just that. */
  lemma RestServed(l: Topology, share: Share, q: Pool, requests: seq<VolumeBinding>, origin: VolumePlan)
    requires Good(l, q) && UniqueSlots(l.slots) && ValidRequests(requests)
    requires var need := Anew(Classify(requests), origin); need != [] ==> Schedule(l, share, q, need, 1, Planning) != []
    ensures var need := Anew(Classify(requests), origin); var rest := Scheduled(l, share, q, need);
      && multiset(BindingsOf(rest)) == multiset(need)
      && forall e :: e in rest && e.binding !in Classify(requests).mono ==> e.size == e.binding.size
  {
    var c := Classify(requests);
    var need := Anew(c, origin);
    AnewValid(requests, origin);
    ClassesApart(requests);
    ClassesApart(need);
    if need == [] {
      assert BindingsOf([]) == [];
    } else {
      ScheduledBindings(l, share, q, need);
      ScheduledSizes(l, share, q, need);
      forall b | b in Classify(need).mono ensures b in c.mono {
        assert b in need;
        AnewAre(c, origin, b);
      }
    }
    hide Schedule, Anew, Classify, AsksFor, Good;
  }

  /** Whatever the requests changed, a reallocated plan serves each of them once, and matched ones where they were. */
  lemma ReallocationServes(l: Topology, share: Share, p: Pool, requests: seq<VolumeBinding>, origin: VolumePlan,
      originRequests: seq<VolumeBinding>, device: string)
    requires Good(l, p) && UniqueSlots(l.slots) && ValidRequests(requests) && NeedSchedule(requests)
    requires DistinctKeys(origin) && Held(Given(origin, originRequests))
    requires Reallocate(l, share, p, requests, origin, originRequests, device).Ok?
    ensures var c := Classify(requests);
      Serves(share, Debit(l, Freed(l, p, origin, originRequests), Before(c, origin)), c, origin, device,
        Reallocate(l, share, p, requests, origin, originRequests, device).value.volumes)
  {
    var c, r := Classify(requests), Freed(l, p, origin, originRequests);
    CreditGood(l, p, Given(origin, originRequests));
    RechargeServes(l, share, r, requests, origin, device);
    hide Recharge, Releasable, Serves, Classify, Good, Held, Debit;
  }

  lemma RechargeServes(l: Topology, share: Share, r: Pool, requests: seq<VolumeBinding>, origin: VolumePlan, device: string)
    requires Good(l, r) && UniqueSlots(l.slots) && ValidRequests(requests) && DistinctKeys(origin)
    requires Recharge(l, share, r, Classify(requests), origin, device).Ok?
    ensures var c := Classify(requests);
      Serves(share, Debit(l, r, Before(c, origin)), c, origin, device, Recharge(l, share, r, c, origin, device).value.volumes)
  {
    var c := Classify(requests);
    var d := Debit(l, r, Before(c, origin));
    var q := Debit(l, d, GroupAt(share, d, c, origin, device));
    hide *;
    ClassifyValid(requests);
    GoodShape(l, r);
    RechargeIff(l, share, r, c, origin, device);
    RechargeParts(l, share, r, c, origin, device);
    GroupNamed(l, d, c, origin, device);
    AfterGroupGood(l, share, r, c, origin, device);
    RestServed(l, share, q, requests, origin);
    var rest := Scheduled(l, share, q, Anew(c, origin));
    PartsServed(share, d, c, origin, device, rest);
    PartsSizes(share, d, c, origin, device, rest);
    ServedAs(share, d, c, origin, device, rest);
  }

  lemma GoodShape(l: Topology, p: Pool)
    requires Good(l, p)
    ensures Distinct(p.used) && Distinct(p.unused) && Disjoint(p.used, p.unused)
  {
  }

  lemma GroupNamed(l: Topology, d: Pool, c: RequestClasses, origin: VolumePlan, device: string)
    requires (exists b :: b in c.mono && Matched(origin, b)) ==> GroupFits(l, d, c.mono, origin, device)
    ensures (exists b :: b in c.mono && Matched(origin, b)) ==> VolumeNamed(AllVolumes(d), device).Some?
  {
    if exists b :: b in c.mono && Matched(origin, b) {
      var v :| (v in d.used || v in d.unused) && v.device == device;
      assert v in AllVolumes(d);
    }
  }

  /** The host is still good once the group is charged. */
  lemma AfterGroupGood(l: Topology, share: Share, r: Pool, c: RequestClasses, origin: VolumePlan, device: string)
    requires Good(l, r) && UniqueSlots(l.slots) && ValidClasses(c) && Recharge(l, share, r, c, origin, device).Ok?
    ensures var d := Debit(l, r, Before(c, origin)); Good(l, Debit(l, d, GroupAt(share, d, c, origin, device)))
  {
    hide Good, Recharge, Payable, Placed, Kept, MountEntries, GroupAt, DiskPlan, Added, HoldsFor, Held, Debit, UniqueSlots, ValidClasses;
    var before := Before(c, origin);
    GoodShape(l, r);
    PlacedParts(l, share, r, c, origin, device);
    PlacedGood(l, share, r, c, origin, device);
    DebitConcat(l, r, before, GroupAt(share, Debit(l, r, before), c, origin, device));
  }

  lemma ServedAs(share: Share, d: Pool, c: RequestClasses, origin: VolumePlan, device: string, rest: VolumePlan)
    requires var plan := Kept(c.normal, origin) + GroupAt(share, d, c, origin, device) + Kept(c.unlimited, origin) + rest;
      && multiset(BindingsOf(plan)) == multiset(c.normal + c.mono + c.unlimited)
      && (forall b, e :: (b in c.normal || b in c.unlimited) && e in origin && e.binding.MapKey() == b.MapKey() ==>
            Entry(b, e.device, b.size) in plan)
      && (forall e :: e in plan && e.binding !in c.mono ==> e.size == e.binding.size)
      && (forall e :: e in GroupAt(share, d, c, origin, device) ==> e in plan)
    ensures Serves(share, d, c, origin, device,
      Kept(c.normal, origin) + GroupAt(share, d, c, origin, device) + Kept(c.unlimited, origin) + rest)
  {
    hide Kept, GroupAt, BindingsOf;
  }
}
