/** What a node has or uses: bytes per volume, quota per disk, storage. */
module Resources {
  import opened Quantity
  import opened Disks

  datatype Resource = Resource(volumes: map<string, int>, disks: seq<Disk>, storage: int)

  /** A Go map lookup: zero when the key is missing. */
  function Stored(volumes: map<string, int>, device: string): int {
    if device in volumes then volumes[device] else 0
  }

  function PlusVolumes(a: map<string, int>, b: map<string, int>): map<string, int> {
    map d | d in a.Keys + b.Keys :: Stored(a, d) + Stored(b, d)
  }

  function MinusVolumes(a: map<string, int>, b: map<string, int>): map<string, int> {
    map d | d in a.Keys + b.Keys :: Stored(a, d) - Stored(b, d)
  }

  /** r is v with the entries of v1 outside rest added, or subtracted. */
  ghost predicate Moved(v: map<string, int>, v1: map<string, int>, rest: set<string>, r: map<string, int>, sign: int) {
    && (forall d :: d in r <==> d in v || (d in v1 && d !in rest))
    && (forall d :: d in r ==> r[d] == Stored(v, d) + if d in v1 && d !in rest then sign * v1[d] else 0)
  }

  lemma MovedNext(v: map<string, int>, v1: map<string, int>, rest: set<string>, r: map<string, int>, sign: int, key: string)
    requires rest <= v1.Keys && key in rest && Moved(v, v1, rest, r, sign)
    ensures Moved(v, v1, rest - {key}, r[key := Stored(r, key) + sign * v1[key]], sign)
  {
    assert key !in r ==> key !in v;
  }

  lemma MovedAll(v: map<string, int>, v1: map<string, int>, r: map<string, int>, sign: int)
    requires Moved(v, v1, {}, r, sign)
    ensures sign == 1 ==> r == PlusVolumes(v, v1)
    ensures sign == -1 ==> r == MinusVolumes(v, v1)
  {
  }

  /** Volumes.Add, in any order of the argument's map. */
  method AddVolumes(v: map<string, int>, v1: map<string, int>) returns (r: map<string, int>)
    ensures r == PlusVolumes(v, v1)
  {
    r := v;
    var rest := v1.Keys;
    while rest != {}
      invariant rest <= v1.Keys && Moved(v, v1, rest, r, 1)
      decreases |rest|
    {
      var key :| key in rest;
      MovedNext(v, v1, rest, r, 1, key);
      rest := rest - {key};
      r := r[key := Stored(r, key) + v1[key]];
    }
    MovedAll(v, v1, r, 1);
  }

  /** Volumes.Sub, in any order of the argument's map. */
  method SubVolumes(v: map<string, int>, v1: map<string, int>) returns (r: map<string, int>)
    ensures r == MinusVolumes(v, v1)
  {
    r := v;
    var rest := v1.Keys;
    while rest != {}
      invariant rest <= v1.Keys && Moved(v, v1, rest, r, -1)
      decreases |rest|
    {
      var key :| key in rest;
      MovedNext(v, v1, rest, r, -1, key);
      rest := rest - {key};
      r := r[key := Stored(r, key) - v1[key]];
    }
    MovedAll(v, v1, r, -1);
  }

  function Plus(a: Resource, b: Resource): Resource {
    Resource(PlusVolumes(a.volumes, b.volumes), Added(a.disks, b.disks), a.storage + b.storage)
  }

  function Minus(a: Resource, b: Resource): Resource {
    Resource(MinusVolumes(a.volumes, b.volumes), Added(a.disks, Negate(b.disks)), a.storage - b.storage)
  }

  class NodeResource {
    var volumes: map<string, int>
    var disks: seq<Disk>
    var storage: int

    constructor (r: Resource)
      ensures Value() == r
    {
      volumes, disks, storage := r.volumes, r.disks, r.storage;
    }

    function Value(): Resource
      reads this
    {
      Resource(volumes, disks, storage)
    }

    method Add(n1: NodeResource)
      modifies this
      ensures Value() == Plus(old(Value()), old(n1.Value()))
    {
      var r := n1.Value();
      volumes := AddVolumes(volumes, r.volumes);
      storage := storage + r.storage;
      disks := Disks.Add(disks, r.disks);
    }

    method Sub(n1: NodeResource)
      modifies this
      ensures Value() == Minus(old(Value()), old(n1.Value()))
    {
      var r := n1.Value();
      volumes := SubVolumes(volumes, r.volumes);
      storage := storage - r.storage;
      disks := Disks.Sub(disks, r.disks);
    }
  }

  // ---- Three accounts: bytes of a volume, quota of a device, storage

  datatype Account = Bytes(device: string) | Draw(disk: string, meter: Meter) | Space

  function Balance(r: Resource, a: Account): int {
    match a
    case Bytes(device) => Stored(r.volumes, device)
    case Draw(disk, meter) => TotalQuota(r.disks, disk, meter)
    case Space => r.storage
  }

  /** Adding resources adds every account. */
  lemma PlusBalance(x: Resource, y: Resource, a: Account)
    ensures Balance(Plus(x, y), a) == Balance(x, a) + Balance(y, a)
  {
    if a.Draw? {
      AddedTotal(x.disks, y.disks, a.disk, a.meter);
    }
  }

  /** Subtracting resources subtracts every account. */
  lemma MinusBalance(x: Resource, y: Resource, a: Account)
    ensures Balance(Minus(x, y), a) == Balance(x, a) - Balance(y, a)
  {
    if a.Draw? {
      SubbedTotal(x.disks, y.disks, a.disk, a.meter);
    }
  }

  /** Adding and then subtracting the same resource leaves every account as it was. */
  lemma PlusMinus(x: Resource, y: Resource, a: Account)
    ensures Balance(Minus(Plus(x, y), y), a) == Balance(x, a)
  {
    PlusBalance(x, y, a);
    MinusBalance(Plus(x, y), y, a);
  }

  lemma UniqueAfter(x: Resource, y: Resource)
    requires UniqueDevices(x.disks) && UniqueDevices(y.disks)
    ensures UniqueDevices(Plus(x, y).disks) && UniqueDevices(Minus(x, y).disks)
  {
    AddedUnique(x.disks, y.disks);
    NegateUnique(y.disks);
    AddedUnique(x.disks, Negate(y.disks));
  }

  lemma NegateUnique(ds: seq<Disk>)
    requires UniqueDevices(ds)
    ensures UniqueDevices(Negate(ds))
  {
    var ns := Negate(ds);
    forall i, j | 0 <= i < j < |ns| ensures ns[i].device != ns[j].device {
      assert ds[i].device != ds[j].device;
    }
  }
}
