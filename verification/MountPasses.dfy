/** Repeating one list of mount charges, in closed form. */
module MountPasses {
  import opened Quantity
  import opened Bindings
  import opened Disks
  import opened Sums
  import opened Charges
  import opened Repetition
  import opened Passes

  function Copies(k: nat, es: seq<Entry>): (r: seq<seq<Entry>>)
    ensures |r| == k
  {
    seq(k, i requires 0 <= i < k => es)
  }

  /** k times one plan draws k times its quota. */
  lemma {:induction false} CopiesDraw(l: Topology, k: nat, es: seq<Entry>, j: nat, m: Meter)
    ensures QuotaOn(l, Flat(Copies(k, es)), j, m) == k * QuotaOn(l, es, j, m)
  {
    if k > 0 {
      CopiesDraw(l, k - 1, es, j, m);
      assert Copies(k, es)[..k - 1] == Copies(k - 1, es);
      QuotaConcat(l, Flat(Copies(k - 1, es)), es, j, m);
    }
  }

  lemma {:induction false} CopiesNoBytes(k: nat, es: seq<Entry>, device: string)
    requires forall e :: e in es ==> e.size == 0
    ensures BytesOn(Flat(Copies(k, es)), device) == 0
  {
    if k > 0 {
      CopiesNoBytes(k - 1, es, device);
      assert Copies(k, es)[..k - 1] == Copies(k - 1, es);
      BytesConcat(Flat(Copies(k - 1, es)), es, device);
      SumZero(BytesAt(device), es);
    }
  }

  /** The quotas can pay for k times a list of charges. */
  ghost predicate Pays(l: Topology, qs: seq<Quota>, es: seq<Entry>, k: nat) {
    forall j, m :: 0 <= j < |qs| ==> k * QuotaOn(l, es, j, m) <= qs[j].Get(m)
  }

  /** With no bytes at stake, being solvent after k copies is paying for them. */
  lemma CopiesSolvent(l: Topology, p: Pool, es: seq<Entry>, k: nat)
    requires Good(l, p) && forall e :: e in es ==> e.size == 0
    ensures Solvent(Debit(l, p, Flat(Copies(k, es)))) <==> Pays(l, p.quotas, es, k)
  {
    var d := Debit(l, p, Flat(Copies(k, es)));
    forall i | 0 <= i < |p.used| ensures d.used[i] == p.used[i] {
      CopiesNoBytes(k, es, p.used[i].device);
    }
    forall i | 0 <= i < |p.unused| ensures d.unused[i] == p.unused[i] {
      CopiesNoBytes(k, es, p.unused[i].device);
    }
    assert d.used == p.used && d.unused == p.unused;
    forall j | 0 <= j < |p.quotas|
      ensures d.quotas[j].NonNegative() <==> forall m :: k * QuotaOn(l, es, j, m) <= p.quotas[j].Get(m)
    {
      forall m: Meter ensures d.quotas[j].Get(m) == p.quotas[j].Get(m) - k * QuotaOn(l, es, j, m) {
        CopiesDraw(l, k, es, j, m);
      }
      if d.quotas[j].NonNegative() {
        forall m: Meter ensures d.quotas[j].Get(m) >= 0 {
          MeterZero(d.quotas[j], m);
        }
      }
      if forall m :: k * QuotaOn(l, es, j, m) <= p.quotas[j].Get(m) {
        NonNegativeByMeter(d.quotas[j]);
      }
    }
  }

  lemma PaysLess(l: Topology, qs: seq<Quota>, es: seq<Entry>, k: nat)
    requires NonNegativeCharges(es) && Pays(l, qs, es, k + 1)
    ensures Pays(l, qs, es, k)
  {
    forall j, m | 0 <= j < |qs| ensures k * QuotaOn(l, es, j, m) <= qs[j].Get(m) {
      QuotaNonNegative(l, es, j, m);
      assert (k + 1) * QuotaOn(l, es, j, m) == k * QuotaOn(l, es, j, m) + QuotaOn(l, es, j, m);
    }
  }

  lemma MountOnePass(l: Topology, p: Pool, mount: seq<VolumeBinding>)
    ensures OnePass(l, p, [], mount) == CheckedPass(l, p, MountEntries(mount))
  {
    DebitNil(l, p);
    var c := CheckedPass(l, p, MountEntries(mount));
    assert [] + c.entries == c.entries;
  }

  /** The run so far is k plans of all mount charges, and the host can pay for them. */
  ghost predicate RunOfCopies(l: Topology, p: Pool, mount: seq<VolumeBinding>, k: nat) {
    && Repeat(l, p, PassOf(l, [], mount), k) == Run(Copies(k, MountEntries(mount)), [], false)
    && Good(l, Debit(l, p, Flat(Copies(k, MountEntries(mount)))))
  }

  /** As long as the quotas pay, every pass of mount requests succeeds and is the same plan. */
  lemma {:induction false} MountRun(l: Topology, p: Pool, mount: seq<VolumeBinding>, k: nat)
    requires Good(l, p) && ValidAll(mount) && OnDisks(l, MountEntries(mount)) && Pays(l, p.quotas, MountEntries(mount), k)
    ensures RunOfCopies(l, p, mount, k)
  {
    MountEntriesValid(mount);
    if k == 0 {
      DebitNil(l, p);
      assert Copies(0, MountEntries(mount)) == [];
    } else {
      PaysLess(l, p.quotas, MountEntries(mount), k - 1);
      MountRun(l, p, mount, k - 1);
      MountRunStep(l, p, mount, k - 1);
    }
  }

  lemma MountRunStep(l: Topology, p: Pool, mount: seq<VolumeBinding>, k: nat)
    requires Good(l, p) && ValidAll(mount) && OnDisks(l, MountEntries(mount)) && Pays(l, p.quotas, MountEntries(mount), k + 1)
    requires RunOfCopies(l, p, mount, k)
    ensures RunOfCopies(l, p, mount, k + 1)
  {
    hide Pays, ValidAll, Good, OnDisks, CheckedPass, Debit, Flat;
    var es := MountEntries(mount);
    var d := Debit(l, p, Flat(Copies(k, es)));
    MountNext(l, p, mount, k);
    assert Copies(k + 1, es) == Copies(k, es) + [es];
    RepeatSpends(l, p, PassOf(l, [], mount), k + 1);
    MountOnePass(l, d, mount);
    MountEntriesValid(mount);
    CheckedPassGood(l, d, es);
  }

  /** After k passes the next one succeeds exactly when the quotas pay for k + 1. */
  lemma MountNext(l: Topology, p: Pool, mount: seq<VolumeBinding>, k: nat)
    requires Good(l, p) && ValidAll(mount) && OnDisks(l, MountEntries(mount))
    requires Good(l, Debit(l, p, Flat(Copies(k, MountEntries(mount)))))
    ensures CheckedPass(l, Debit(l, p, Flat(Copies(k, MountEntries(mount)))), MountEntries(mount)).ok
       <==> Pays(l, p.quotas, MountEntries(mount), k + 1)
  {
    var es := MountEntries(mount);
    var fs := Flat(Copies(k, es));
    MountEntriesValid(mount);
    CheckedIffSolvent(l, Debit(l, p, fs), es);
    DebitConcat(l, p, fs, es);
    assert Copies(k + 1, es)[..k] == Copies(k, es);
    assert Flat(Copies(k + 1, es)) == fs + es;
    CopiesSolvent(l, p, es, k + 1);
  }

  /** When the quotas pay for k passes and not for k + 1, the run is k plans and the charges of one failed pass. */
  lemma MountRunStops(l: Topology, p: Pool, mount: seq<VolumeBinding>, k: nat, bound: nat)
    requires Good(l, p) && ValidAll(mount) && OnDisks(l, MountEntries(mount)) && k < bound
    requires Pays(l, p.quotas, MountEntries(mount), k) && !Pays(l, p.quotas, MountEntries(mount), k + 1)
    ensures var es := MountEntries(mount);
      Repeat(l, p, PassOf(l, [], mount), bound)
        == Run(Copies(k, es), CheckedPass(l, Debit(l, p, Flat(Copies(k, es))), es).entries, true)
  {
    MountRun(l, p, mount, k);
    MountNext(l, p, mount, k);
    RepeatSpends(l, p, PassOf(l, [], mount), k + 1);
    MountOnePass(l, Debit(l, p, Flat(Copies(k, MountEntries(mount)))), mount);
    RepeatPrefix(l, p, PassOf(l, [], mount), k + 1, bound);
  }
}
