/** The four disk quotas the storage plugin meters together: operations and bytes per second, read and write. */
module Quantity {

  // The largest value of the source's int and int64.
  const MAX_INT: int := 0x7FFF_FFFF_FFFF_FFFF

  datatype Meter = ReadIOPS | WriteIOPS | ReadBPS | WriteBPS

  datatype Quota = Quota(readIOPS: int, writeIOPS: int, readBPS: int, writeBPS: int) {

    function Get(m: Meter): int {
      match m
      case ReadIOPS => readIOPS
      case WriteIOPS => writeIOPS
      case ReadBPS => readBPS
      case WriteBPS => writeBPS
    }

    function Plus(o: Quota): Quota {
      Quota(readIOPS + o.readIOPS, writeIOPS + o.writeIOPS, readBPS + o.readBPS, writeBPS + o.writeBPS)
    }

    function Minus(o: Quota): Quota {
      Quota(readIOPS - o.readIOPS, writeIOPS - o.writeIOPS, readBPS - o.readBPS, writeBPS - o.writeBPS)
    }

    function Times(k: int): Quota {
      Quota(k * readIOPS, k * writeIOPS, k * readBPS, k * writeBPS)
    }

    predicate Leq(o: Quota) {
      readIOPS <= o.readIOPS && writeIOPS <= o.writeIOPS && readBPS <= o.readBPS && writeBPS <= o.writeBPS
    }

    predicate NonNegative() {
      readIOPS >= 0 && writeIOPS >= 0 && readBPS >= 0 && writeBPS >= 0
    }

    predicate IsZero() {
      readIOPS == 0 && writeIOPS == 0 && readBPS == 0 && writeBPS == 0
    }

    /** Some quota is asked for: the source's RequireIOPS. */
    predicate Positive() {
      readIOPS > 0 || writeIOPS > 0 || readBPS > 0 || writeBPS > 0
    }
  }

  /** Comparing quotas is comparing every meter. */
  lemma LeqByMeter(a: Quota, b: Quota)
    ensures a.Leq(b) <==> forall m: Meter :: a.Get(m) <= b.Get(m)
  {
    if forall m: Meter :: a.Get(m) <= b.Get(m) {
      assert a.Get(ReadIOPS) <= b.Get(ReadIOPS) && a.Get(WriteIOPS) <= b.Get(WriteIOPS);
      assert a.Get(ReadBPS) <= b.Get(ReadBPS) && a.Get(WriteBPS) <= b.Get(WriteBPS);
    }
  }

  /** A quota is determined by its meters. */
  lemma EqualByMeter(a: Quota, b: Quota)
    requires forall m: Meter :: a.Get(m) == b.Get(m)
    ensures a == b
  {
    assert a.Get(ReadIOPS) == b.Get(ReadIOPS) && a.Get(WriteIOPS) == b.Get(WriteIOPS);
    assert a.Get(ReadBPS) == b.Get(ReadBPS) && a.Get(WriteBPS) == b.Get(WriteBPS);
  }

  function Min(a: int, b: int): int {
    if a <= b then a else b
  }

  function Max(a: int, b: int): int {
    if a >= b then a else b
  }
}
