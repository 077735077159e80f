/** Memory settings of a VM as CIM shows them, in whole megabytes, and as it reads them back.
    The megabytes come out of a quotient in single precision. */
module MemorySettings {
  import opened Wrappers
  import opened MachineIntegers
  import opened SinglePrecision

  const ONE_MB := 0x10_0000
  const SINGLE := 0x100_0000
  const DOUBLE := 0x20_0000_0000_0000

  /** Up to here a single-precision quotient by one megabyte fits whole megabytes. */
  const LIMIT := 0x1000_0000_0000

  /** The byte count whose exact quotient by one megabyte is the single-precision number handed
      to ceilf: converted to double precision first, then to single. */
  function InSingle(memory: nat): nat {
    RoundToWidth(RoundToWidth(memory, DOUBLE), SINGLE)
  }

  /** The least whole number of megabytes that holds `bytes`. */
  function Megabytes(bytes: nat): (k: nat)
    ensures bytes <= k * ONE_MB < bytes + ONE_MB
  {
    (bytes + ONE_MB - 1) / ONE_MB
  }

  function RoundMemory(memory: int): int {
    if memory > ONE_MB then Megabytes(InSingle(memory)) * ONE_MB else ONE_MB
  }

  lemma MegabyteIsPower()
    ensures Pow2(20) == ONE_MB
  {
    assert Pow2(5) == 32;
    Pow2Adds(5, 5);
    Pow2Adds(10, 10);
  }

  lemma DoubleIsExact(memory: nat)
    requires memory <= DOUBLE
    ensures InSingle(memory) == RoundToWidth(memory, SINGLE)
  {
    assert memory == memory * Pow2(0);
    RoundFixes(memory, memory, DOUBLE, DOUBLE / 2, 0);
  }

  lemma MegabytesAreExact(k: nat)
    requires k <= SINGLE
    ensures InSingle(k * ONE_MB) == k * ONE_MB
  {
    MegabyteIsPower();
    DoubleIsExact(k * ONE_MB);
    RoundFixes(k * ONE_MB, k, SINGLE, SINGLE / 2, 20);
  }

  lemma InSingleMonotone(a: nat, b: nat)
    requires a <= b
    ensures InSingle(a) <= InSingle(b)
  {
    RoundMonotone(a, b, DOUBLE);
    RoundMonotone(RoundToWidth(a, DOUBLE), RoundToWidth(b, DOUBLE), SINGLE);
  }

  /** Single precision stays between the neighbouring whole megabytes. */
  lemma InSingleBetween(memory: nat, k: nat, over: nat)
    requires memory == k * ONE_MB + over && over < ONE_MB && memory <= LIMIT
    ensures k * ONE_MB <= InSingle(memory) <= k * ONE_MB + ONE_MB
    ensures over == 0 ==> InSingle(memory) == memory
    ensures over > 0 ==> k < SINGLE
  {
    hide InSingle;
    MegabytesAreExact(k);
    InSingleMonotone(k * ONE_MB, memory);
    if over > 0 {
      MegabytesAreExact(k + 1);
      InSingleMonotone(memory, (k + 1) * ONE_MB);
    }
  }

  /** Above one megabyte the rounded size is the floor or the ceiling. */
  lemma FloorOrCeiling(memory: nat, k: nat, over: nat)
    requires memory == k * ONE_MB + over && over < ONE_MB && ONE_MB < memory <= LIMIT
    ensures RoundMemory(memory) == k * ONE_MB || (over > 0 && RoundMemory(memory) == (k + 1) * ONE_MB)
    ensures RoundMemory(memory) == k * ONE_MB <==> InSingle(memory) == k * ONE_MB
  {
    hide InSingle;
    InSingleBetween(memory, k, over);
  }

  /** The rounded size is a whole number of megabytes, at least one; above one it is the floor or
      the ceiling, so less than a megabyte off, and exact on whole megabytes. */
  lemma RoundMemoryIsClose(memory: nat) returns (k: nat)
    requires memory <= LIMIT
    ensures RoundMemory(memory) == k * ONE_MB && 1 <= k <= SINGLE
    ensures memory > ONE_MB ==> k == memory / ONE_MB || (memory % ONE_MB != 0 && k == memory / ONE_MB + 1)
    ensures memory > 0 && memory % ONE_MB == 0 ==> RoundMemory(memory) == memory
    ensures -ONE_MB < RoundMemory(memory) - memory <= ONE_MB
  {
    k := 1;
    if memory > ONE_MB {
      var low, over := memory / ONE_MB, memory % ONE_MB;
      FloorOrCeiling(memory, low, over);
      InSingleBetween(memory, low, over);
      k := if RoundMemory(memory) == low * ONE_MB then low else low + 1;
    }
  }

  lemma MegabytesMonotone(x: nat, y: nat)
    requires x <= y
    ensures Megabytes(x) <= Megabytes(y)
  {
  }

  lemma AtLeastOneMegabyte(b: nat, k: nat)
    requires k == 1 && k * ONE_MB <= b
    ensures Megabytes(InSingle(b)) >= 1
  {
    hide InSingle;
    MegabytesAreExact(k);
    InSingleMonotone(k * ONE_MB, b);
  }

  lemma RoundMemoryMonotone(a: int, b: int)
    requires a <= b
    ensures RoundMemory(a) <= RoundMemory(b)
  {
    hide InSingle;
    if a > ONE_MB {
      InSingleMonotone(a, b);
      MegabytesMonotone(InSingle(a), InSingle(b));
    } else if b > ONE_MB {
      AtLeastOneMegabyte(b, 1);
    }
  }

  lemma RoundMemoryIdempotent(memory: nat)
    requires memory <= LIMIT
    ensures RoundMemory(RoundMemory(memory)) == RoundMemory(memory)
  {
    hide InSingle, RoundMemory;
    var k := RoundMemoryIsClose(memory);
    var l := RoundMemoryIsClose(k * ONE_MB);
  }

  lemma GrainDividesMegabyte(memory: nat) returns (j: nat)
    requires memory < LIMIT
    ensures ONE_MB == j * Pow2(Grain(memory, SINGLE))
  {
    MegabyteIsPower();
    GrainIsLeast(memory, SINGLE, 20);
    j := CoarserMultiple(1, 20, Grain(memory, SINGLE));
  }

  /** The bytes over a whole megabyte are lost to single precision: under half the spacing of
      single-precision numbers around this size, or exactly half of it above an even one. */
  predicate LostInSingle(memory: nat) {
    var unit := Pow2(Grain(memory, SINGLE));
    var over := memory % ONE_MB;
    2 * over < unit || (2 * over == unit && Units(memory, unit) % 2 == 0)
  }

  lemma NearestIsFloorIff(memory: nat, unit: nat, a: nat, over: nat)
    requires unit >= 1 && memory == a * unit + over
    ensures NearestMultiple(memory, unit) >= a * unit
    ensures NearestMultiple(memory, unit) == a * unit <==>
              2 * over < unit || (2 * over == unit && Units(memory, unit) % 2 == 0)
  {
    UnitsAtLeast(memory, unit, a);
    NearestBounds(memory, unit);
    if over < unit {
      assert (a + 1) * unit == a * unit + unit;
      UnitsAtMost(memory, unit, a + 1);
    } else {
      assert (a + 1) * unit == a * unit + unit;
      UnitsAtLeast(memory, unit, a + 1);
      Times(a + 1, Units(memory, unit), unit);
    }
  }

  /** Despite its comment the code does not always round up: a size that is not a whole number of
      megabytes is rounded down exactly when the excess is lost to single precision. */
  lemma RoundsDownIff(memory: nat)
    requires ONE_MB < memory < LIMIT && memory % ONE_MB != 0
    ensures RoundMemory(memory) == memory / ONE_MB * ONE_MB <==> LostInSingle(memory)
    ensures RoundMemory(memory) == memory / ONE_MB * ONE_MB + ONE_MB <==> !LostInSingle(memory)
  {
    hide InSingle, RoundMemory, NearestMultiple;
    DoubleIsExact(memory);
    FloorOrCeiling(memory, memory / ONE_MB, memory % ONE_MB);
    var unit := Pow2(Grain(memory, SINGLE));
    var j := GrainDividesMegabyte(memory);
    var k := memory / ONE_MB;
    assert k * ONE_MB == (k * j) * unit by {
      Associate(k, j, unit);
    }
    NearestIsFloorIff(memory, unit, k * j, memory % ONE_MB);
  }

  /** It rounds up for every size up to 16 MB ... */
  lemma RoundsUpToSixteenMegabytes(memory: nat)
    requires ONE_MB < memory <= SINGLE
    ensures RoundMemory(memory) == Megabytes(memory) * ONE_MB
  {
    if memory % ONE_MB == 0 {
      FloorOrCeiling(memory, memory / ONE_MB, 0);
    } else {
      GrainIsLeast(memory, SINGLE, 0);
      RoundsDownIff(memory);
    }
  }

  /** ... and first fails one byte above. */
  lemma OneByteLost()
    ensures RoundMemory(SINGLE + 1) == SINGLE && SINGLE == 16777216 && ONE_MB == 1048576
  {
    assert Pow2(1) == 2;
    GrainIsLeast(SINGLE + 1, SINGLE, 1);
    assert Grain(SINGLE + 1, SINGLE) == 1;
    UnitsAtLeast(SINGLE + 1, 2, SINGLE / 2);
    UnitsAtMost(SINGLE + 1, 2, SINGLE / 2 + 1);
    RoundsDownIff(SINGLE + 1);
  }

  /** The four memory fields of a VM record, in bytes. */
  datatype Memory = Memory(staticMax: int, staticMin: int, dynamicMax: int, dynamicMin: int) {

    predicate Ordered() {
      staticMin <= dynamicMin <= dynamicMax <= staticMax
    }
  }

  /** A memory setting-data instance; `multiplier` is what its allocation units stand for, zero
      if they are not understood. */
  datatype Rasd = Rasd(virtualQuantity: Option<uint64>, reservation: Option<uint64>,
                       limit: Option<uint64>, multiplier: nat)

  function Bytes(quantity: Option<uint64>, multiplier: nat, fallback: int): int {
    if quantity.Some? && quantity.value != 0 then ToInt64(quantity.value * multiplier) else fallback
  }

  /** What reading an instance back makes of a record; None when the instance is rejected. */
  function Imported(m: Memory, rasd: Rasd, op: Operation): Option<Memory> {
    if rasd.multiplier == 0 || rasd.virtualQuantity.None? then None
    else
      var size := ToInt64(rasd.virtualQuantity.value * rasd.multiplier);
      var reserve := Bytes(rasd.reservation, rasd.multiplier, size);
      var limit := Bytes(rasd.limit, rasd.multiplier, size);
      Some(Applied(m, size, reserve, limit, op))
  }

  function Applied(m: Memory, size: int, reserve: int, limit: int, op: Operation): Memory {
    match op
    case Add => Memory(ToInt64(m.staticMax + size), ToInt64(m.staticMin + reserve),
                       ToInt64(m.dynamicMax + limit), ToInt64(m.dynamicMin + reserve))
    case Delete => Memory(ToInt64(m.staticMax - size), ToInt64(m.staticMin - reserve),
                          ToInt64(m.dynamicMax - limit), ToInt64(m.dynamicMin - reserve))
    case Modify => Memory(size, reserve, limit, reserve)
  }

  function Combined(was: int, op: Operation, part: int): int {
    match op
    case Add => ToInt64(was + part)
    case Delete => ToInt64(was - part)
    case Modify => part
  }

  lemma CombinedTakes(was: int, op: Operation, part: int, amount: int)
    requires Stored(part, amount)
    ensures Takes(was, Combined(was, op, part), op, amount)
  {
    StoredSum(was, part, amount);
  }

  /** What an accepted instance does, in bytes: the static maximum takes the quantity; both minima
      take the reservation, or the quantity if none is given or it is zero; the dynamic maximum
      takes the limit, or the quantity likewise. */
  lemma ImportedMeans(m: Memory, rasd: Rasd, op: Operation)
    ensures Imported(m, rasd, op).Some? <==> rasd.multiplier != 0 && rasd.virtualQuantity.Some?
    ensures Imported(m, rasd, op).Some? ==>
              TakesAll(m, Imported(m, rasd, op).value, rasd, op, rasd.virtualQuantity.value * rasd.multiplier)
  {
    hide Takes, Stored, ToInt64;
    if rasd.multiplier != 0 && rasd.virtualQuantity.Some? {
      var quantity := rasd.virtualQuantity.value * rasd.multiplier;
      var size := ToInt64(quantity);
      var reservation, limit := InBytes(rasd.reservation, rasd.multiplier, quantity), InBytes(rasd.limit, rasd.multiplier, quantity);
      BytesStored(rasd.reservation, rasd.multiplier, quantity);
      BytesStored(rasd.limit, rasd.multiplier, quantity);
      CombinedTakes(m.staticMax, op, size, quantity);
      CombinedTakes(m.staticMin, op, Bytes(rasd.reservation, rasd.multiplier, size), reservation);
      CombinedTakes(m.dynamicMin, op, Bytes(rasd.reservation, rasd.multiplier, size), reservation);
      CombinedTakes(m.dynamicMax, op, Bytes(rasd.limit, rasd.multiplier, size), limit);
    }
  }

  function InBytes(given: Option<uint64>, multiplier: nat, quantity: int): int {
    if given.Some? && given.value != 0 then given.value * multiplier else quantity
  }

  lemma BytesStored(given: Option<uint64>, multiplier: nat, quantity: int)
    ensures Stored(ToInt64(quantity), quantity)
    ensures Stored(Bytes(given, multiplier, ToInt64(quantity)), InBytes(given, multiplier, quantity))
  {
  }

  predicate TakesAll(was: Memory, now: Memory, rasd: Rasd, op: Operation, quantity: int) {
    && Takes(was.staticMax, now.staticMax, op, quantity)
    && (rasd.reservation in {None, Some(0)} ==>
          Takes(was.staticMin, now.staticMin, op, quantity) && Takes(was.dynamicMin, now.dynamicMin, op, quantity))
    && (rasd.limit in {None, Some(0)} ==> Takes(was.dynamicMax, now.dynamicMax, op, quantity))
    && (rasd.reservation.Some? && rasd.reservation.value != 0 ==>
          var reservation := rasd.reservation.value * rasd.multiplier;
          && Takes(was.staticMin, now.staticMin, op, reservation)
          && Takes(was.dynamicMin, now.dynamicMin, op, reservation))
    && (rasd.limit.Some? && rasd.limit.value != 0 ==>
          Takes(was.dynamicMax, now.dynamicMax, op, rasd.limit.value * rasd.multiplier))
  }

  /** The ordinary instance, a quantity and nothing else, sets all four fields to it. */
  lemma PlainModify(m: Memory, rasd: Rasd)
    ensures rasd.multiplier != 0 && rasd.virtualQuantity.Some? && rasd.reservation.None? && rasd.limit.None? &&
            rasd.virtualQuantity.value * rasd.multiplier < TWO_63 ==>
              var quantity := rasd.virtualQuantity.value * rasd.multiplier;
              Imported(m, rasd, Modify) == Some(Memory(quantity, quantity, quantity, quantity))
  {
  }

  class VmRecord {
    var staticMax: int
    var staticMin: int
    var dynamicMax: int
    var dynamicMin: int

    function Fields(): Memory
      reads this
    {
      Memory(staticMax, staticMin, dynamicMax, dynamicMin)
    }

    /** memory_rasd_to_vm_rec: a rejected instance leaves the record alone. */
    method FromRasd(rasd: Rasd, op: Operation) returns (accepted: bool)
      modifies this
      ensures accepted <==> Imported(old(Fields()), rasd, op).Some?
      ensures Fields() == if accepted then Imported(old(Fields()), rasd, op).value else old(Fields())
      ensures accepted <==> rasd.multiplier != 0 && rasd.virtualQuantity.Some?
      ensures accepted ==>
                TakesAll(old(Fields()), Fields(), rasd, op, rasd.virtualQuantity.value * rasd.multiplier)
      ensures accepted && op == Modify && rasd.reservation.None? && rasd.limit.None? &&
              rasd.virtualQuantity.value * rasd.multiplier < TWO_63 ==>
                staticMax == staticMin == dynamicMax == dynamicMin == rasd.virtualQuantity.value * rasd.multiplier
    {
      hide TakesAll, Takes;
      ImportedMeans(Fields(), rasd, op);
      PlainModify(Fields(), rasd);
      if rasd.multiplier == 0 {
        return false;
      }
      if rasd.virtualQuantity.None? {
        return false;
      }
      var memSize := ToInt64(rasd.virtualQuantity.value * rasd.multiplier);
      var reserveMemSize := memSize;
      if rasd.reservation.Some? && rasd.reservation.value != 0 {
        reserveMemSize := ToInt64(rasd.reservation.value * rasd.multiplier);
      }
      var limitMemSize := memSize;
      if rasd.limit.Some? && rasd.limit.value != 0 {
        limitMemSize := ToInt64(rasd.limit.value * rasd.multiplier);
      }
      Apply(memSize, reserveMemSize, limitMemSize, op);
      return true;
    }

    /** The switch at the end of it. */
    method Apply(memSize: int, reserveMemSize: int, limitMemSize: int, op: Operation)
      modifies this
      ensures Fields() == Applied(old(Fields()), memSize, reserveMemSize, limitMemSize, op)
    {
      match op {
        case Add =>
          staticMax := ToInt64(staticMax + memSize);
          staticMin := ToInt64(staticMin + reserveMemSize);
          dynamicMax := ToInt64(dynamicMax + limitMemSize);
          dynamicMin := ToInt64(dynamicMin + reserveMemSize);
        case Delete =>
          staticMax := ToInt64(staticMax - memSize);
          staticMin := ToInt64(staticMin - reserveMemSize);
          dynamicMax := ToInt64(dynamicMax - limitMemSize);
          dynamicMin := ToInt64(dynamicMin - reserveMemSize);
        case Modify =>
          staticMax := memSize;
          staticMin := reserveMemSize;
          dynamicMax := limitMemSize;
          dynamicMin := reserveMemSize;
      }
    }
  }

  predicate InRange(m: Memory) {
    && 0 <= m.staticMax <= LIMIT && 0 <= m.staticMin <= LIMIT
    && 0 <= m.dynamicMax <= LIMIT && 0 <= m.dynamicMin <= LIMIT
  }

  /** memory_rasd_from_vm_rec: a VM with no recorded actual memory shows its static maximum. */
  function Exported(m: Memory, actual: nat): Rasd
    requires InRange(m) && actual <= LIMIT
  {
    var shown := if actual == 0 then m.staticMax else actual;
    Quantities(m.dynamicMin, shown, m.dynamicMax)
  }

  function Quantities(reservation: nat, quantity: nat, limit: nat): Rasd
    requires reservation <= LIMIT && quantity <= LIMIT && limit <= LIMIT
  {
    InUnits(reservation);
    InUnits(quantity);
    InUnits(limit);
    Rasd(Some(RoundMemory(quantity) / ONE_MB), Some(RoundMemory(reservation) / ONE_MB),
         Some(RoundMemory(limit) / ONE_MB), ONE_MB)
  }

  /** A rounded size is a small positive number of megabytes and is read back unchanged. */
  lemma InUnits(memory: nat)
    requires memory <= LIMIT
    ensures 1 <= RoundMemory(memory) / ONE_MB <= SINGLE
    ensures ToInt64(RoundMemory(memory) / ONE_MB * ONE_MB) == RoundMemory(memory)
  {
    hide RoundMemory;
    var k := RoundMemoryIsClose(memory);
  }

  /** Exporting a VM and reading the instance back sets the four fields to the rounded sizes. */
  lemma RoundTrip(m: Memory, actual: nat)
    requires InRange(m) && actual <= LIMIT
    ensures var shown := if actual == 0 then m.staticMax else actual;
            Imported(m, Exported(m, actual), Modify) ==
              Some(Memory(RoundMemory(shown), RoundMemory(m.dynamicMin),
                          RoundMemory(m.dynamicMax), RoundMemory(m.dynamicMin)))
  {
    hide RoundMemory;
    InUnits(m.dynamicMin);
    InUnits(m.dynamicMax);
    InUnits(if actual == 0 then m.staticMax else actual);
  }

  /** For a halted VM the round trip moves static maximum, dynamic maximum and dynamic minimum by
      at most a megabyte and keeps the four fields in order. */
  lemma RoundTripIsClose(m: Memory)
    requires InRange(m) && m.Ordered()
    ensures var r := Imported(m, Exported(m, 0), Modify).value;
            && r.Ordered() && InRange(r)
            && -ONE_MB < r.staticMax - m.staticMax <= ONE_MB
            && -ONE_MB < r.dynamicMax - m.dynamicMax <= ONE_MB
            && -ONE_MB < r.dynamicMin - m.dynamicMin <= ONE_MB
            && r.staticMin == r.dynamicMin
  {
    hide RoundMemory;
    RoundTrip(m, 0);
    var a := RoundMemoryIsClose(m.staticMax);
    var b := RoundMemoryIsClose(m.dynamicMax);
    var c := RoundMemoryIsClose(m.dynamicMin);
    RoundMemoryMonotone(m.dynamicMin, m.dynamicMax);
    RoundMemoryMonotone(m.dynamicMax, m.staticMax);
  }

  predicate WholeMegabytes(m: Memory) {
    && m.staticMax % ONE_MB == 0 && m.dynamicMax % ONE_MB == 0 && m.dynamicMin % ONE_MB == 0
    && m.staticMax > 0 && m.dynamicMax > 0 && m.dynamicMin > 0
  }

  /** For a halted VM the round trip is the identity exactly on records of positive whole
      megabytes whose two minima agree. */
  lemma RoundTripIsIdentityIff(m: Memory)
    requires InRange(m)
    ensures Imported(m, Exported(m, 0), Modify) == Some(m) <==> WholeMegabytes(m) && m.staticMin == m.dynamicMin
  {
    hide RoundMemory;
    RoundTrip(m, 0);
    var a := RoundMemoryIsClose(m.staticMax);
    var b := RoundMemoryIsClose(m.dynamicMax);
    var c := RoundMemoryIsClose(m.dynamicMin);
  }

  /** A second round trip changes nothing. */
  lemma RoundTripTwice(m: Memory)
    requires InRange(m) && m.Ordered()
    ensures var once := Imported(m, Exported(m, 0), Modify).value;
            InRange(once) && Imported(once, Exported(once, 0), Modify) == Some(once)
  {
    hide RoundMemory;
    RoundTripIsClose(m);
    RoundTrip(m, 0);
    var once := Imported(m, Exported(m, 0), Modify).value;
    RoundTrip(once, 0);
    RoundMemoryIdempotent(m.staticMax);
    RoundMemoryIdempotent(m.dynamicMax);
    RoundMemoryIdempotent(m.dynamicMin);
  }
}
