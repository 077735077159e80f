/** Signed 64-bit fields, and what the three resource operations do to one. */
module MachineIntegers {

  const TWO_63 := 0x8000_0000_0000_0000
  const TWO_64 := 0x1_0000_0000_0000_0000

  type uint64 = x: int | 0 <= x < TWO_64
  type int64 = x: int | -TWO_63 <= x < TWO_63

  /** A result of 64-bit arithmetic stored into a signed field. */
  function ToInt64(x: int): (r: int64)
    ensures (r - x) % TWO_64 == 0
    ensures -TWO_63 <= x < TWO_63 ==> r == x
  {
    (x + TWO_63) % TWO_64 - TWO_63
  }

  /** A signed field holds a count, up to wrapping round. */
  predicate Stored(field: int, exact: int) {
    -TWO_63 <= field < TWO_63 && (field - exact) % TWO_64 == 0
  }

  lemma StoredExactly(field: int, exact: int)
    requires Stored(field, exact) && -TWO_63 <= exact < TWO_63
    ensures field == exact
  {
  }

  /** Adding what is itself stored wraps no further. */
  lemma StoredSum(x: int, part: int, y: int)
    requires Stored(part, y)
    ensures Stored(ToInt64(x + part), x + y) && Stored(ToInt64(x - part), x - y)
  {
    Multiples(ToInt64(x + part) - (x + part), part - y);
    Multiples(ToInt64(x - part) - (x - part), y - part);
  }

  lemma Multiples(a: int, b: int)
    requires a % TWO_64 == 0 && (b % TWO_64 == 0 || (-b) % TWO_64 == 0)
    ensures (a + b) % TWO_64 == 0
  {
  }

  /** How an instance's quantity is to be taken: on top of a field, off it, or in its place. */
  datatype Operation = Add | Delete | Modify

  /** The count asked for, before it is squeezed into a field. */
  function Exact(field: int, op: Operation, amount: int): int {
    match op
    case Add => field + amount
    case Delete => field - amount
    case Modify => amount
  }

  /** One field of a record takes an amount in, wrapping round if it must. */
  predicate Takes(was: int, now: int, op: Operation, amount: int) {
    match op
    case Add => Stored(now, was + amount)
    case Delete => Stored(now, was - amount)
    case Modify => Stored(now, amount)
  }

  lemma TakesInRange(was: int, now: int, op: Operation, amount: int)
    requires Takes(was, now, op, amount)
    ensures op == Add && -TWO_63 <= was + amount < TWO_63 ==> now == was + amount
    ensures op == Delete && -TWO_63 <= was - amount < TWO_63 ==> now == was - amount
    ensures op == Modify && -TWO_63 <= amount < TWO_63 ==> now == amount
  {
  }
}
