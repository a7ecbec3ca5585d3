/** What every plan keeps that is scheduled or reallocated on a record, so that it can be reallocated again. */
module LivePlans {
  import opened Quantity
  import opened Options
  import opened Bindings
  import opened Disks
  import opened Volumes
  import opened Sums
  import opened Charges
  import opened Passes
  import opened Monopoly
  import opened Planner
  import opened Affinity
  import opened Reallocation
  import opened Fixpoint
  import opened Resources
  import opened HostRecords
  import opened HostAffinity
  import opened Serving
  import opened Ledgers
  import opened Deployments
  import opened Reallocs
  import opened AffinityCharges
  import opened VolumePlans
  import opened Picks
  import opened Merging

  /** The mounts of a record's disks. */
  function Layouts(capacity: Resource): Topology {
    TopologyAt(LayoutOf(capacity.disks))
  }

  /**
   * What reallocating a workload relies on: valid requests, charges that are not negative and that its disk plan covers, one
   * entry of each key, and all its monopoly bindings on one device.
   */
  ghost predicate Sits(capacity: Resource, o: Origin) {
    && ValidRequests(o.requests) && o.storage >= 0
    && Held(Given(o.plan.volumes, o.requests))
    && Covers(Layouts(capacity), o.plan.disks, Given(o.plan.volumes, o.requests))
    && DistinctKeys(o.plan.volumes) && Together(o.plan.volumes)
  }

  lemma HoldsCovers(l: Topology, disks: seq<Disk>, es: seq<Entry>)
    requires HoldsFor(l, disks, es)
    ensures Covers(l, disks, es)
  {
  }

  lemma OriginAccounts(capacity: Resource, o: Origin, a: Account)
    requires Sits(capacity, o)
    ensures Balance(UsageOf(OriginWorkload(o)), a) >= 0
  {
    var l, given := Layouts(capacity), Given(o.plan.volumes, o.requests);
    WorkloadAccounts(o.plan, o.storage);
    match a
    case Bytes(d) => NoMountBytes(Classify(o.requests).mount, o.plan.volumes, d);
    case Draw(disk, m) =>
      if j: nat :| j < |l.slots| && l.slots[j].device == disk {
        HeldQuota(l, given, j, m);
      } else {
        assert PlanContents.NoSlot(l, disk);
      }
    case Space =>
  }

  // ---- What the scheduler proposes sits on the record

  /** Requests that need neither volumes nor quota are served by the empty plan. */
  lemma NothingSits(capacity: Resource, reqs: seq<VolumeBinding>, storage: int)
    requires ValidRequests(reqs) && !NeedSchedule(reqs) && storage >= 0
    ensures Sits(capacity, Origin(reqs, Deployment([], []), storage))
  {
    ClassifyValid(reqs);
    var mounts := MountEntries(Classify(reqs).mount);
    NothingHeld(Layouts(capacity), reqs);
    HoldsCovers(Layouts(capacity), [], mounts + []);
    assert mounts + [] == mounts;
    forall d ensures BytesOn(mounts, d) >= 0 {
      SumZero(BytesAt(d), mounts);
    }
  }

  lemma ScheduledSits(capacity: Resource, usage: Resource, share: Share, p: Pool, reqs: seq<VolumeBinding>, n: nat, i: nat, storage: int)
    requires Records.RecordValid(capacity, usage) && HostOf(capacity, usage, p) && ValidRequests(reqs) && storage >= 0
    requires i < |Schedule(Layouts(capacity), share, p, reqs, n, Planning)|
    ensures Sits(capacity, Origin(reqs, Schedule(Layouts(capacity), share, p, reqs, n, Planning)[i], storage))
  {
    var l := Layouts(capacity);
    HostGood(capacity, usage, p);
    if NeedSchedule(reqs) {
      var d := Schedule(l, share, p, reqs, n, Planning)[i];
      var parts, v, rest := PlanInParts(l, share, p, reqs, n, Planning, i);
      ClassifyValid(reqs);
      PartsSit(l, share, Classify(reqs), d, parts, v, rest);
      HoldsCovers(l, d.disks, MountEntries(Classify(reqs).mount) + d.volumes);
      KeysDistinct(l, share, reqs, d, parts, v, rest);
      PartsTogether(l, share, reqs, d, parts, v, rest);
    } else {
      NothingSits(capacity, reqs, storage);
    }
  }

  lemma PartsSit(l: Topology, share: Share, c: RequestClasses, d: Deployment, n: VolumePlan, v: Volume, u: VolumePlan)
    requires ValidClasses(c) && InParts(l, share, c, d, n, v, u) && (c.mono != [] ==> v.size >= 0)
    ensures Held(MountEntries(c.mount) + d.volumes) && HoldsFor(l, d.disks, MountEntries(c.mount) + d.volumes)
  {
    var mounts := MountEntries(c.mount);
    var w := if c.mono == [] then Volume(v.device, 0) else v;
    assert MonoGroup(share, c.mono, w) == MonoGroup(share, c.mono, v);
    PartsHeld(l, share, c, d, n, w, u);
    forall j, m | 0 <= j < |l.slots| ensures TotalQuota(d.disks, l.slots[j].device, m) == QuotaOn(l, mounts + d.volumes, j, m) {
      QuotaConcat(l, mounts, d.volumes, j, m);
      QuotaConcat(l, d.volumes, mounts, j, m);
    }
  }

  lemma ScheduledPlaced(l: Topology, share: Share, p: Pool, reqs: seq<VolumeBinding>)
    requires Good(l, p) && UniqueSlots(l.slots) && ValidRequests(reqs) && Schedule(l, share, p, reqs, 1, Planning) != []
    ensures AllPlaced(p, Schedule(l, share, p, reqs, 1, Planning)[0].volumes)
  {
    if NeedSchedule(reqs) {
      var _, _, _ := PlanInParts(l, share, p, reqs, 1, Planning, 0);
    }
  }

  lemma GroupPlacedOn(l: Topology, share: Share, r: Pool, es: seq<Entry>, mono: seq<VolumeBinding>, origin: VolumePlan, device: string)
    requires KeptGroup(l, share, Debit(l, r, es), mono, origin, device).Some?
    ensures AllPlaced(r, KeptGroup(l, share, Debit(l, r, es), mono, origin, device).value)
  {
    var d := Debit(l, r, es);
    var v := VolumeNamed(AllVolumes(d), device).value;
    assert v in d.used || v in d.unused;
    ChargesKeepDevices(l, r, es, v.device);
    var group := KeptGroup(l, share, d, mono, origin, device).value;
    forall e | e in group ensures PlanContents.OnHost(r, e.device) {
      var k :| 0 <= k < |group| && group[k] == e;
    }
  }

  lemma FinishPlaced(l: Topology, share: Share, r: Pool, es: seq<Entry>, requests: seq<VolumeBinding>,
      origin: VolumePlan, placed: VolumePlan, disks: seq<Disk>)
    requires Good(l, Debit(l, r, es)) && UniqueSlots(l.slots) && ValidRequests(requests) && AllPlaced(r, placed) && AllPlaced(r, origin)
    requires Finish(l, share, Debit(l, r, es), Classify(requests), origin, placed, disks).Ok?
    ensures AllPlaced(r, Finish(l, share, Debit(l, r, es), Classify(requests), origin, placed, disks).value.volumes)
  {
    var c, p := Classify(requests), Debit(l, r, es);
    AnewValid(requests, origin);
    KeptPlaced(r, c.unlimited, origin);
    if Anew(c, origin) != [] {
      ScheduledPlaced(l, share, p, Anew(c, origin));
      var more := Schedule(l, share, p, Anew(c, origin), 1, Planning)[0].volumes;
      forall e | e in more ensures PlanContents.OnHost(r, e.device) {
        ChargesKeepDevices(l, r, es, e.device);
      }
    }
  }

  lemma RechargedPlaced(l: Topology, share: Share, r: Pool, requests: seq<VolumeBinding>, origin: VolumePlan, device: string)
    requires Good(l, r) && UniqueSlots(l.slots) && ValidRequests(requests) && AllPlaced(r, origin)
    requires Recharge(l, share, r, Classify(requests), origin, device).Ok?
    ensures AllPlaced(r, Recharge(l, share, r, Classify(requests), origin, device).value.volumes)
  {
    var c := Classify(requests);
    var mounts, kept := MountEntries(c.mount), Kept(c.normal, origin);
    ClassifyValid(requests);
    KeptPlaced(r, c.normal, origin);
    if Kept(c.mono, origin) != [] {
      GroupPlacedOn(l, share, r, mounts + kept, c.mono, origin, device);
    }
    var placed := Placed(l, share, Debit(l, r, mounts + kept), c, origin, device).value;
    assert AllPlaced(r, placed);
    PlacedGood(l, share, r, c, origin, device);
    hide Good, Finish, Placed, Classify, Kept, MountEntries, Debit, AllPlaced, Payable;
    FinishPlaced(l, share, r, mounts + placed, requests, origin, placed, Added(DiskPlan(l, mounts), DiskPlan(l, placed)));
  }

  /** Everything of a reallocated plan is on a volume of the host. */
  lemma ReallocatedPlaced(l: Topology, share: Share, p: Pool, requests: seq<VolumeBinding>, origin: VolumePlan,
      originRequests: seq<VolumeBinding>, device: string)
    requires Good(l, p) && UniqueSlots(l.slots) && ValidRequests(requests)
    requires Held(Given(origin, originRequests)) && Reallocate(l, share, p, requests, origin, originRequests, device).Ok?
    ensures AllPlaced(p, Reallocate(l, share, p, requests, origin, originRequests, device).value.volumes)
  {
    if NeedSchedule(requests) {
      var given := Given(origin, originRequests);
      var r := Credit(l, p, given);
      CreditGood(l, p, given);
      ReleasedReady(l, p, origin, originRequests);
      RechargedPlaced(l, share, r, requests, origin, device);
      var plan := Recharge(l, share, r, Classify(requests), origin, device).value.volumes;
      forall e | e in plan ensures PlanContents.OnHost(p, e.device) {
        SameHost(p, given, l, e.device);
      }
    }
  }

  // ---- Monopoly bindings stay together

  /** The monopoly bindings of a plan are all on one device. */
  ghost predicate MonoOn(plan: VolumePlan, device: string) {
    forall e :: e in plan && e.binding.RequireScheduleMonopoly() ==> e.device == device
  }

  ghost predicate NoMono(plan: VolumePlan) {
    forall e :: e in plan ==> !e.binding.RequireScheduleMonopoly()
  }

  /** The monopoly bindings of a scheduled plan are those of its group. */
  lemma PartsTogether(l: Topology, share: Share, reqs: seq<VolumeBinding>, d: Deployment, n: VolumePlan, v: Volume, u: VolumePlan)
    requires InParts(l, share, Classify(reqs), d, n, v, u)
    ensures MonoOn(d.volumes, v.device) && Together(d.volumes) && (Classify(reqs).mono == [] ==> NoMono(d.volumes))
  {
    var c := Classify(reqs);
    var g := MonoGroup(share, c.mono, v);
    ClassKinds(reqs);
    SizedPlain(n, c.normal);
    SizedPlain(u, c.unlimited);
    forall e | e in g ensures e.device == v.device {
      var k :| 0 <= k < |g| && g[k] == e;
    }
    assert forall e :: e in d.volumes ==> e in n || e in g || e in u;
  }

  lemma SizedPlain(es: VolumePlan, reqs: seq<VolumeBinding>)
    requires Sized(es, reqs) && forall b :: b in reqs ==> !b.RequireScheduleMonopoly()
    ensures NoMono(es)
  {
    forall e | e in es ensures !e.binding.RequireScheduleMonopoly() {
      var k :| 0 <= k < |es| && es[k] == e;
      assert reqs[k] in reqs;
    }
  }

  /** The one plan scheduled for some requests. */
  lemma ScheduledTogether(l: Topology, share: Share, p: Pool, reqs: seq<VolumeBinding>) returns (device: string)
    requires Good(l, p) && UniqueSlots(l.slots) && ValidRequests(reqs) && NeedSchedule(reqs) && Schedule(l, share, p, reqs, 1, Planning) != []
    ensures MonoOn(Schedule(l, share, p, reqs, 1, Planning)[0].volumes, device)
    ensures Classify(reqs).mono == [] ==> NoMono(Schedule(l, share, p, reqs, 1, Planning)[0].volumes)
  {
    var n, v, u := PlanInParts(l, share, p, reqs, 1, Planning, 0);
    device := v.device;
    hide Schedule, InParts, ValidRequests;
    PartsTogether(l, share, reqs, Schedule(l, share, p, reqs, 1, Planning)[0], n, v, u);
  }

  lemma KeptPlain(reqs: seq<VolumeBinding>, origin: VolumePlan)
    requires forall b :: b in reqs ==> !b.RequireScheduleMonopoly()
    ensures NoMono(Kept(reqs, origin))
  {
    KeptIn(reqs, origin);
  }

  /** With a matched group nothing that is left to schedule is a monopoly request. */
  lemma AnewPlain(requests: seq<VolumeBinding>, origin: VolumePlan)
    requires Kept(Classify(requests).mono, origin) != []
    ensures Classify(Anew(Classify(requests), origin)).mono == []
  {
    var c := Classify(requests);
    var need := Anew(c, origin);
    ClassKinds(requests);
    UnmatchedIn(c.normal, origin);
    UnmatchedIn(c.unlimited, origin);
    NoneOfKind(need, Mono);
    assert SortBySize([]) == [];
  }

  /** What finishing adds to placed bindings leaves the monopoly bindings together. */
  lemma FinishTogether(l: Topology, share: Share, p: Pool, requests: seq<VolumeBinding>, origin: VolumePlan,
      placed: VolumePlan, disks: seq<Disk>, at: string)
      returns (device: string)
    requires Good(l, p) && UniqueSlots(l.slots) && ValidRequests(requests)
    requires MonoOn(placed, at) && (Kept(Classify(requests).mono, origin) == [] ==> NoMono(placed))
    requires Finish(l, share, p, Classify(requests), origin, placed, disks).Ok?
    ensures MonoOn(Finish(l, share, p, Classify(requests), origin, placed, disks).value.volumes, device)
  {
    var c := Classify(requests);
    ClassKinds(requests);
    KeptPlain(c.unlimited, origin);
    AnewValid(requests, origin);
    device := at;
    if Anew(c, origin) != [] {
      var other := ScheduledTogether(l, share, p, Anew(c, origin));
      if Kept(c.mono, origin) == [] {
        device := other;
      } else {
        AnewPlain(requests, origin);
      }
    }
  }

  lemma PlacedTogether(l: Topology, share: Share, d: Pool, requests: seq<VolumeBinding>, origin: VolumePlan, device: string)
    requires Placed(l, share, d, Classify(requests), origin, device).Some?
    ensures var placed := Placed(l, share, d, Classify(requests), origin, device).value;
      MonoOn(placed, device) && (Kept(Classify(requests).mono, origin) == [] ==> NoMono(placed))
  {
    var c := Classify(requests);
    ClassKinds(requests);
    KeptPlain(c.normal, origin);
    if Kept(c.mono, origin) != [] {
      var group := KeptGroup(l, share, d, c.mono, origin, device).value;
      forall e | e in group ensures e.device == device {
        var k :| 0 <= k < |group| && group[k] == e;
      }
    }
  }

  /** A reallocated plan has its monopoly bindings on one device. */
  lemma ReallocatedTogether(l: Topology, share: Share, p: Pool, requests: seq<VolumeBinding>, origin: VolumePlan,
      originRequests: seq<VolumeBinding>, device: string)
    requires Good(l, p) && UniqueSlots(l.slots) && ValidRequests(requests)
    requires Held(Given(origin, originRequests)) && Reallocate(l, share, p, requests, origin, originRequests, device).Ok?
    ensures Together(Reallocate(l, share, p, requests, origin, originRequests, device).value.volumes)
  {
    if NeedSchedule(requests) {
      CreditGood(l, p, Given(origin, originRequests));
      RechargedTogether(l, share, Credit(l, p, Given(origin, originRequests)), requests, origin, device);
    }
  }

  lemma RechargedTogether(l: Topology, share: Share, r: Pool, requests: seq<VolumeBinding>, origin: VolumePlan, device: string)
    requires Good(l, r) && UniqueSlots(l.slots) && ValidRequests(requests) && Recharge(l, share, r, Classify(requests), origin, device).Ok?
    ensures Together(Recharge(l, share, r, Classify(requests), origin, device).value.volumes)
  {
    var c := Classify(requests);
    var mounts, kept := MountEntries(c.mount), Kept(c.normal, origin);
    ClassifyValid(requests);
    RechargeIs(l, share, r, c, origin, device);
    PlacedGood(l, share, r, c, origin, device);
    PlacedTogether(l, share, Debit(l, r, mounts + kept), requests, origin, device);
    var placed := Placed(l, share, Debit(l, r, mounts + kept), c, origin, device).value;
    hide Recharge, Finish, Placed, Classify, Kept, MountEntries, Debit, Good;
    var _ := FinishTogether(l, share, Debit(l, r, mounts + placed), requests, origin, placed,
      Added(DiskPlan(l, mounts), DiskPlan(l, placed)), device);
  }

  // ---- A reallocated plan has one entry of each key

  /** The bindings of a plan are different requests. */
  ghost predicate Different(plan: VolumePlan, c: RequestClasses) {
    multiset(BindingsOf(plan)) <= multiset(c.normal + c.mono + c.unlimited)
  }

  lemma DifferentDistinct(plan: VolumePlan, requests: seq<VolumeBinding>)
    requires ValidRequests(requests) && Different(plan, Classify(requests))
    ensures DistinctKeys(plan)
  {
    var c := Classify(requests);
    ClassesUnlike(requests);
    SubsetUnlike(c.normal + c.mono + c.unlimited, BindingsOf(plan));
    PlanUnlike(plan, BindingsOf(plan));
  }

  lemma FinishDifferent(l: Topology, share: Share, p: Pool, requests: seq<VolumeBinding>, origin: VolumePlan,
      placed: VolumePlan, disks: seq<Disk>)
    requires Good(l, p) && UniqueSlots(l.slots) && ValidRequests(requests) && Apportioned(Classify(requests), origin, placed)
    requires Finish(l, share, p, Classify(requests), origin, placed, disks).Ok?
    ensures Different(Finish(l, share, p, Classify(requests), origin, placed, disks).value.volumes, Classify(requests))
  {
    var c := Classify(requests);
    var kept := Kept(c.unlimited, origin);
    BindingsConcat(placed, kept);
    if Anew(c, origin) != [] {
      AnewValid(requests, origin);
      ScheduledBindings(l, share, p, Anew(c, origin));
      BindingsConcat(placed + kept, Schedule(l, share, p, Anew(c, origin), 1, Planning)[0].volumes);
    }
  }

  lemma RechargedDifferent(l: Topology, share: Share, r: Pool, requests: seq<VolumeBinding>, origin: VolumePlan, device: string)
    requires Good(l, r) && UniqueSlots(l.slots) && ValidRequests(requests) && Recharge(l, share, r, Classify(requests), origin, device).Ok?
    ensures Different(Recharge(l, share, r, Classify(requests), origin, device).value.volumes, Classify(requests))
  {
    var c := Classify(requests);
    var mounts, kept := MountEntries(c.mount), Kept(c.normal, origin);
    ClassifyValid(requests);
    RechargeIs(l, share, r, c, origin, device);
    PlacedGood(l, share, r, c, origin, device);
    PlacedApportioned(l, share, Debit(l, r, mounts + kept), c, origin, device);
    var placed := Placed(l, share, Debit(l, r, mounts + kept), c, origin, device).value;
    hide Recharge, Finish, Placed, Classify, Kept, MountEntries, Debit, Good, Apportioned;
    FinishDifferent(l, share, Debit(l, r, mounts + placed), requests, origin, placed, Added(DiskPlan(l, mounts), DiskPlan(l, placed)));
  }

  lemma ReallocatedDistinct(l: Topology, share: Share, p: Pool, requests: seq<VolumeBinding>, origin: VolumePlan,
      originRequests: seq<VolumeBinding>, device: string)
    requires Good(l, p) && UniqueSlots(l.slots) && ValidRequests(requests)
    requires Held(Given(origin, originRequests)) && Reallocate(l, share, p, requests, origin, originRequests, device).Ok?
    ensures DistinctKeys(Reallocate(l, share, p, requests, origin, originRequests, device).value.volumes)
  {
    if NeedSchedule(requests) {
      var r := Credit(l, p, Given(origin, originRequests));
      CreditGood(l, p, Given(origin, originRequests));
      RechargedDifferent(l, share, r, requests, origin, device);
      DifferentDistinct(Recharge(l, share, r, Classify(requests), origin, device).value.volumes, requests);
    }
  }

  /** The order of a plan does not matter to either. */
  lemma AnyOrderSits(a: VolumePlan, b: VolumePlan)
    requires multiset(a) == multiset(b) && DistinctKeys(a) && Together(a)
    ensures DistinctKeys(b) && Together(b)
  {
    forall e ensures e in b <==> e in a {
      assert e in b <==> e in multiset(b);
      assert e in a <==> e in multiset(a);
    }
    forall i, j | 0 <= i < j < |b| ensures b[i].binding.MapKey() != b[j].binding.MapKey() {
      KeysApart(a, b, i, j);
    }
  }

  lemma KeysApart(a: VolumePlan, b: VolumePlan, i: nat, j: nat)
    requires multiset(a) == multiset(b) && DistinctKeys(a) && i < j < |b|
    ensures b[i].binding.MapKey() != b[j].binding.MapKey()
  {
    assert b[i] in multiset(a) && b[j] in multiset(a);
    var x :| 0 <= x < |a| && a[x] == b[i];
    var y :| 0 <= y < |a| && a[y] == b[j];
    if x == y {
      CountTwice(b, i, j);
      EntryOnce(a, x);
    }
  }

  lemma EntryOnce(a: VolumePlan, x: nat)
    requires DistinctKeys(a) && x < |a|
    ensures multiset(a)[a[x]] == 1
  {
    assert a == a[..x] + [a[x]] + a[x + 1..];
    assert a[x] !in a[..x] && a[x] !in a[x + 1..];
  }

  /** Placed entries that hold nothing negative on the host hold nothing negative anywhere. */
  lemma PlacedHeld(p: Pool, mount: seq<VolumeBinding>, plan: VolumePlan)
    requires HostHeld(p, MountEntries(mount) + plan) && AllPlaced(p, plan)
    ensures Held(MountEntries(mount) + plan)
  {
    forall device ensures BytesOn(MountEntries(mount) + plan, device) >= 0 {
      if PlanContents.OnHost(p, device) {
        var v :| (v in p.used || v in p.unused) && v.device == device;
      } else {
        NoMountBytes(mount, plan, device);
        SumZero(BytesAt(device), plan);
      }
    }
  }

  /** What reallocation answers sits on the record. */
  lemma AnswerSits(capacity: Resource, usage: Resource, share: Share, p: Pool, o: Origin, requests: seq<VolumeBinding>, storage: int,
      device: string, answer: Deployment)
    requires Records.RecordValid(capacity, usage) && HostOf(capacity, usage, p) && Sits(capacity, o) && ValidRequests(requests) && storage >= 0
    requires Reallocate(Layouts(capacity), share, p, requests, o.plan.volumes, o.requests, device).Ok?
    requires AnswersOn(capacity, requests, Reallocate(Layouts(capacity), share, p, requests, o.plan.volumes, o.requests, device).value, answer)
    ensures Sits(capacity, Origin(requests, answer, storage))
  {
    var l, given, mount := Layouts(capacity), Given(o.plan.volumes, o.requests), Classify(requests).mount;
    var r := Credit(l, p, given);
    var d := Reallocate(l, share, p, requests, o.plan.volumes, o.requests, device).value;
    HostGood(capacity, usage, p);
    if NeedSchedule(requests) {
      ReallocationFits(l, share, p, requests, o.plan.volumes, o.requests, device);
    } else {
      CreditGood(l, p, given);
      EmptyFits(l, r, requests);
    }
    AnswerFits(capacity, r, requests, d, answer);
    ReallocatedPlaced(l, share, p, requests, o.plan.volumes, o.requests, device);
    forall e | e in answer.volumes ensures PlanContents.OnHost(r, e.device) {
      assert e in multiset(d.volumes);
      SameHost(p, given, l, e.device);
    }
    PlacedHeld(r, mount, answer.volumes);
    HoldsCovers(l, answer.disks, MountEntries(mount) + answer.volumes);
    ReallocatedTogether(l, share, p, requests, o.plan.volumes, o.requests, device);
    ReallocatedDistinct(l, share, p, requests, o.plan.volumes, o.requests, device);
    AnyOrderSits(d.volumes, answer.volumes);
  }

  /** A request that needs no scheduling leaves a plan that still covers the merged bindings. */
  lemma MergedSits(capacity: Resource, o: Origin, request: seq<VolumeBinding>, merged: seq<VolumeBinding>, storage: int)
    requires Sits(capacity, o) && !NeedSchedule(request) && MergedAs(request, o.requests, merged) && ValidRequests(merged) && storage >= 0
    ensures Sits(capacity, Origin(merged, o.plan, storage))
  {
    var l, plan := Layouts(capacity), o.plan.volumes;
    var before, after := MountEntries(Classify(o.requests).mount), MountEntries(Classify(merged).mount);
    ClassifyValid(merged);
    forall e: Entry | e in after + plan ensures e.binding.quota.NonNegative() {
      if e in plan {
        assert e in before + plan;
      }
    }
    forall device ensures BytesOn(after + plan, device) >= 0 {
      NoMountBytes(Classify(merged).mount, plan, device);
      NoMountBytes(Classify(o.requests).mount, plan, device);
      assert BytesOn(before + plan, device) >= 0;
    }
    forall j, m | 0 <= j < |l.slots| ensures QuotaOn(l, after + plan, j, m) <= TotalQuota(o.plan.disks, l.slots[j].device, m) {
      MountsOnlyLowered(l, request, o.requests, merged, j, m);
      QuotaConcat(l, before, plan, j, m);
      QuotaConcat(l, after, plan, j, m);
    }
  }

  // ---- The whole reallocation request

  /** Merged bindings have different destinations. */
  ghost predicate ApartMerged(request: seq<VolumeBinding>, origin: seq<VolumeBinding>) {
    forall merged: seq<VolumeBinding>, i, j :: MergedAs(request, origin, merged) && 0 <= i < j < |merged| ==>
      merged[i].destination != merged[j].destination
  }

  /** What request validation asks of merged bindings, whose sizes are not negative any more. */
  predicate Accepted(merged: seq<VolumeBinding>) {
    forall b: VolumeBinding :: b in merged ==> b.quota.NonNegative() && (b.RequireScheduleMonopoly() ==> b.size > 0)
  }

  /** Merged bindings are refused exactly when one of them asks for a negative quota, or for a volume of its own without a size. */
  lemma RefusedIff(merged: seq<VolumeBinding>)
    ensures !Accepted(merged) <==> exists b, m: Meter :: b in merged && (b.quota.Get(m) < 0 || (AsksFor(b, Mono) && b.size <= 0))
  {
    forall b: VolumeBinding {
      KindIsAsked(b);
    }
    if !Accepted(merged) {
      var b :| b in merged && !(b.quota.NonNegative() && (b.RequireScheduleMonopoly() ==> b.size > 0));
      var q := b.quota;
      assert q.Get(ReadIOPS) < 0 || q.Get(WriteIOPS) < 0 || q.Get(ReadBPS) < 0 || q.Get(WriteBPS) < 0 || (AsksFor(b, Mono) && b.size <= 0);
    }
  }

  /** The storage a reallocation asks for: what it adds, what there was, and the sizes of the bindings it adds to. */
  function NewStorage(o: Origin, request: Request): int {
    request.storage + o.storage + TotalSize(request.volumes)
  }

  /** Whatever may be come to first, the outcome for a plan that sits is the same. */
  lemma AnyPick(capacity: Resource, usage: Resource, share: Share, p: Pool, o: Origin, requests: seq<VolumeBinding>, storage: int,
      reschedule: bool, d: string, e: string)
    requires Sits(capacity, o) && MayPick(requests, o.plan.volumes, d) && MayPick(requests, o.plan.volumes, e)
    ensures Target(capacity, usage, share, p, o, requests, storage, reschedule, d) ==
      Target(capacity, usage, share, p, o, requests, storage, reschedule, e)
  {
    var l := Layouts(capacity);
    if Kept(Classify(requests).mono, o.plan.volumes) == [] {
      NoPick(l, share, p, requests, o.plan.volumes, o.requests, d, e);
    } else {
      AnyOrder(l, share, p, requests, o.plan.volumes, o.plan.volumes, o.requests, d, e);
    }
    hide Reallocate;
  }

  /** The answer to a reallocation request, with the plan it gives. */
  function PlanIn(r: Result<(Origin, Workload)>): Result<(Deployment, Workload)> {
    match r
    case Ok(v) => Ok((v.0.plan, v.1))
    case Err(e) => Err(e)
  }

  /** A request validated and merged: the plan is kept when the request needs no scheduling, and reallocated otherwise. */
  method ReallocMerged(capacity: Resource, usage: Resource, share: Share, o: Origin, request: seq<VolumeBinding>,
      merged: seq<VolumeBinding>, storage: int)
      returns (r: Result<(Origin, Workload)>)
    requires Usable(capacity, usage) && Sits(capacity, o) && Included(capacity, usage, o)
    requires MergedAs(request, o.requests, merged) && ValidRequests(merged) && storage >= 0
    ensures forall p, device :: HostOf(capacity, usage, p) && MayPick(merged, o.plan.volumes, device) ==>
      Planned(capacity, merged,
        Target(capacity, usage, share, p, o, merged, storage, NeedSchedule(request), device), NeedSchedule(request), PlanIn(r))
    ensures r.Err? ==> r.error == ErrInsufficientResource
    ensures r.Ok? ==> IsRealloc(capacity, usage, o, merged, storage, r.value.0, r.value.1)
    ensures r.Ok? ==> usage.storage - o.storage + storage <= capacity.storage
  {
    hide HostOf, Target, MergedAs, Included, NeedSchedule, Replaced, Records.Acceptable, MayPick, AnswersOn, Delta, ValidRequests;
    var reschedule := NeedSchedule(request);
    var found;
    ghost var device;
    found, device := PlanRealloc(capacity, usage, share, o, merged, storage, reschedule);
    forall p, d | HostOf(capacity, usage, p) && MayPick(merged, o.plan.volumes, d)
      ensures Planned(capacity, merged, Target(capacity, usage, share, p, o, merged, storage, reschedule, d), reschedule, found)
    {
      AnyPick(capacity, usage, share, p, o, merged, storage, reschedule, d, device);
    }
    if found.Err? {
      return Err(found.error);
    }
    r := Ok((Origin(merged, found.value.0, storage), found.value.1));
    if reschedule {
      ghost var p :| HostOf(capacity, usage, p);
      PlannedSits(capacity, usage, share, p, o, merged, storage, device, found);
    } else {
      MergedSits(capacity, o, request, merged, storage);
    }
  }

  /** The target of a reallocation with its delta: it sits on the record, and committing the delta leaves a record that validates. */
  ghost predicate IsRealloc(capacity: Resource, usage: Resource, o: Origin, merged: seq<VolumeBinding>, storage: int,
      target: Origin, delta: Workload) {
    && target.requests == merged && target.storage == storage && Sits(capacity, target)
    && delta == Delta(OriginWorkload(o), OriginWorkload(target))
    && Records.Acceptable(capacity, Replaced(usage, o, OriginWorkload(target)))
  }

  /**
   * CalculateRealloc without limits: merges the request into the workload's bindings, validates the result, and reallocates.
   * The merged bindings are listed in any order.
   */
  method CalculateRealloc(capacity: Resource, usage: Resource, share: Share, o: Origin, request: Request)
      returns (r: Result<(Origin, Workload)>, merged: seq<VolumeBinding>)
    requires Usable(capacity, usage) && Sits(capacity, o) && Included(capacity, usage, o) && ApartMerged(request.volumes, o.requests)
    ensures MergedAs(request.volumes, o.requests, merged)
    ensures r == Err(ErrInvalidVolume) <==> exists b, m: Meter :: b in merged && (b.quota.Get(m) < 0 || (AsksFor(b, Mono) && b.size <= 0))
    ensures r == Err(ErrInvalidVolume) <==> !Accepted(merged)
    ensures r == Err(ErrInvalidStorage) <==> Accepted(merged) && NewStorage(o, request) < 0
    ensures Accepted(merged) && NewStorage(o, request) >= 0 ==>
      forall p, device :: HostOf(capacity, usage, p) && MayPick(merged, o.plan.volumes, device) ==>
        var reschedule := NeedSchedule(request.volumes);
        Planned(capacity, merged,
          Target(capacity, usage, share, p, o, merged, NewStorage(o, request), reschedule, device), reschedule, PlanIn(r))
    ensures r.Ok? ==> IsRealloc(capacity, usage, o, merged, NewStorage(o, request), r.value.0, r.value.1)
    ensures r.Ok? ==> r.value.0.storage == request.storage + o.storage + SumBy(SizeAsked(), request.volumes)
    ensures r.Ok? ==> usage.storage - o.storage + r.value.0.storage <= capacity.storage
    ensures forall p, device :: HostOf(capacity, usage, p) && MayPick(merged, o.plan.volumes, device) ==>
      (r.Ok? <==> Accepted(merged) && Granted(capacity, usage, share, p, o, request, merged, device))
  {
    r, merged := MergeAndPlan(capacity, usage, share, o, request);
    RefusedIff(merged);
    forall p, device | HostOf(capacity, usage, p) && MayPick(merged, o.plan.volumes, device)
      ensures r.Ok? <==> Accepted(merged) && Granted(capacity, usage, share, p, o, request, merged, device)
    {
      TargetIff(capacity, usage, share, p, o, merged, NewStorage(o, request), NeedSchedule(request.volumes), device);
    }
    hide Usable, Sits, Included, HostOf, Target, NeedSchedule, MayPick, IsRealloc, Granted;
  }

  /** The storage asked for is not negative and fits, and what must be rescheduled of the merged bindings can be served. */
  ghost predicate Granted(capacity: Resource, usage: Resource, share: Share, p: Pool, o: Origin, request: Request,
      merged: seq<VolumeBinding>, device: string) {
    var storage := request.storage + o.storage + SumBy(SizeAsked(), request.volumes);
    storage >= 0 && Grantable(capacity, usage, share, p, o, merged, storage, NeedSchedule(request.volumes), device)
  }

  /** Merges and validates a request, and reallocates. */
  method MergeAndPlan(capacity: Resource, usage: Resource, share: Share, o: Origin, request: Request)
      returns (r: Result<(Origin, Workload)>, merged: seq<VolumeBinding>)
    requires Usable(capacity, usage) && Sits(capacity, o) && Included(capacity, usage, o) && ApartMerged(request.volumes, o.requests)
    ensures MergedAs(request.volumes, o.requests, merged)
    ensures r == Err(ErrInvalidVolume) <==> !Accepted(merged)
    ensures r == Err(ErrInvalidStorage) <==> Accepted(merged) && NewStorage(o, request) < 0
    ensures Accepted(merged) && NewStorage(o, request) >= 0 ==>
      forall p, device :: HostOf(capacity, usage, p) && MayPick(merged, o.plan.volumes, device) ==>
        var reschedule := NeedSchedule(request.volumes);
        Planned(capacity, merged,
          Target(capacity, usage, share, p, o, merged, NewStorage(o, request), reschedule, device), reschedule, PlanIn(r))
    ensures r.Ok? ==> IsRealloc(capacity, usage, o, merged, NewStorage(o, request), r.value.0, r.value.1)
    ensures r.Ok? ==> usage.storage - o.storage + NewStorage(o, request) <= capacity.storage
  {
    hide Usable, Sits, Included, HostOf, Target, Planned, NeedSchedule, MayPick, PlanIn, IsRealloc;
    merged := MergeVolumeBindings(request.volumes, o.requests);
    if !Accepted(merged) {
      return Err(ErrInvalidVolume), merged;
    }
    var storage := NewStorage(o, request);
    if storage < 0 {
      return Err(ErrInvalidStorage), merged;
    }
    r := ReallocMerged(capacity, usage, share, o, request.volumes, merged, storage);
  }

  /** The plan of an answer sits on the record. */
  lemma PlannedSits(capacity: Resource, usage: Resource, share: Share, p: Pool, o: Origin, requests: seq<VolumeBinding>, storage: int,
      device: string, found: Result<(Deployment, Workload)>)
    requires Records.RecordValid(capacity, usage) && HostOf(capacity, usage, p) && Sits(capacity, o)
    requires ValidRequests(requests) && storage >= 0 && found.Ok?
    requires Planned(capacity, requests, Target(capacity, usage, share, p, o, requests, storage, true, device), true, found)
    ensures Sits(capacity, Origin(requests, found.value.0, storage))
  {
    hide Sits, HostOf, Reallocate, AnswersOn, Records.RecordValid, ValidRequests;
    AnswerSits(capacity, usage, share, p, o, requests, storage, device, found.value.0);
  }
}
