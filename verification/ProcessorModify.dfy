/** Changing the number of virtual processors: what a setting-data instance asks for, within
    the limit of eight, and the order of setter calls that takes Xen there. */
module ProcessorModify {
  import opened Wrappers
  import opened XenServer
  import opened MachineIntegers

  const VCPUS_MAX := 8

  function Combine(field: int64, op: Operation, amount: uint64): int64 {
    ToInt64(Exact(field, op, amount))
  }

  /** The exact counts that get past the limit: those within it, and those that a signed field
      wraps round to something within it. */
  predicate Passes(exact: int) {
    || exact <= VCPUS_MAX - TWO_64
    || -TWO_63 <= exact <= VCPUS_MAX
    || TWO_63 <= exact <= TWO_64 + VCPUS_MAX
  }

  class VmRecord {
    var vcpusMax: int64
    var vcpusAtStartup: int64

    /** proc_rasd_to_vm_rec: the record is updated even when the limit is then found exceeded.
        The instance is accepted exactly when both exact counts get past the limit. */
    method FromRasd(op: Operation, virtualQuantity: Option<uint64>, reservation: Option<uint64>)
      returns (accepted: bool)
      modifies this
      ensures virtualQuantity.None? ==>
                !accepted && vcpusMax == old(vcpusMax) && vcpusAtStartup == old(vcpusAtStartup)
      ensures virtualQuantity.Some? ==>
                && vcpusMax == Combine(old(vcpusMax), op, virtualQuantity.value)
                && vcpusAtStartup == (if reservation.Some? && reservation.value != 0 then
                                        Combine(old(vcpusAtStartup), op, reservation.value) else vcpusMax)
      ensures virtualQuantity.Some? ==>
                && Takes(old(vcpusMax), vcpusMax, op, virtualQuantity.value)
                && (reservation in {None, Some(0)} ==> vcpusAtStartup == vcpusMax)
                && (reservation.Some? && reservation.value != 0 ==>
                      Takes(old(vcpusAtStartup), vcpusAtStartup, op, reservation.value))
      ensures accepted <==> virtualQuantity.Some? && vcpusMax <= 8 && vcpusAtStartup <= 8
      ensures accepted <==>
                && virtualQuantity.Some?
                && Passes(Exact(old(vcpusMax), op, virtualQuantity.value))
                && (reservation.Some? && reservation.value != 0 ==>
                      Passes(Exact(old(vcpusAtStartup), op, reservation.value)))
    {
      if virtualQuantity.None? {
        return false;
      }
      LimitLetsThrough(vcpusMax, op, virtualQuantity.value);
      match op {
        case Add => vcpusMax := ToInt64(vcpusMax + virtualQuantity.value);
        case Delete => vcpusMax := ToInt64(vcpusMax - virtualQuantity.value);
        case Modify => vcpusMax := ToInt64(virtualQuantity.value);
      }
      if reservation.Some? && reservation.value != 0 {
        LimitLetsThrough(vcpusAtStartup, op, reservation.value);
        match op {
          case Add => vcpusAtStartup := ToInt64(vcpusAtStartup + reservation.value);
          case Delete => vcpusAtStartup := ToInt64(vcpusAtStartup - reservation.value);
          case Modify => vcpusAtStartup := ToInt64(reservation.value);
        }
      } else {
        vcpusAtStartup := vcpusMax;
      }
      accepted := !(vcpusAtStartup > VCPUS_MAX || vcpusMax > VCPUS_MAX);
    }
  }

  /** The number of virtual processors a template leads to; zero asks for the default. */
  function TargetMax(templateMax: int, currentMax: int): int {
    if templateMax != 0 then templateMax else currentMax
  }

  function TargetStartup(templateMax: int, templateStartup: int): int {
    if templateStartup != 0 then templateStartup else templateMax
  }

  predicate Ordered(startup: int, max: int) {
    1 <= startup <= max
  }

  /** Xen's view of the VM. It refuses any single change that would break the order, and counts
      the refusals. */
  class Server {
    var ok: bool
    var fates: seq<bool>
    var max: int
    var startup: int
    var refusals: nat

    predicate Valid()
      reads this
    {
      Ordered(startup, max)
    }

    method Call(accepted: bool) returns (success: bool)
      modifies this`ok, this`fates, this`refusals
      ensures success == ok
      ensures ok <==> old(Link(ok, None, fates).Succeeds(accepted))
      ensures refusals == old(refusals) + if old(ok) && !accepted then 1 else 0
      ensures old(fates) == [] ==> fates == []
    {
      if ok {
        if !accepted {
          refusals := refusals + 1;
        }
        ok := accepted && (fates == [] || fates[0]);
        if fates != [] {
          fates := fates[1..];
        }
      }
      return ok;
    }

    method SetStartup(n: int) returns (success: bool)
      requires Valid()
      modifies this`ok, this`fates, this`refusals, this`startup
      ensures Valid()
      ensures success == ok && (ok <==> old(Link(ok, None, fates).Succeeds(Ordered(n, max))))
      ensures startup == if ok then n else old(startup)
      ensures refusals == old(refusals) + if old(ok) && !Ordered(n, max) then 1 else 0
      ensures old(fates) == [] ==> fates == []
    {
      success := Call(Ordered(n, max));
      if success {
        startup := n;
      }
    }

    method SetMax(n: int) returns (success: bool)
      requires Valid()
      modifies this`ok, this`fates, this`refusals, this`max
      ensures Valid()
      ensures success == ok && (ok <==> old(Link(ok, None, fates).Succeeds(Ordered(startup, n))))
      ensures max == if ok then n else old(max)
      ensures refusals == old(refusals) + if old(ok) && !Ordered(startup, n) then 1 else 0
      ensures old(fates) == [] ==> fates == []
    {
      success := Call(Ordered(startup, n));
      if success {
        max := n;
      }
    }

    /** proc_rasd_modify. `junkMax` and `junkStartup` are what the locals hold when the call that
        should set them fails. The result is non-zero exactly when every call succeeded. */
    method Modify(templateMax: int, templateStartup: int, junkMax: int, junkStartup: int) returns (rc: bool)
      requires Valid()
      modifies this
      ensures Valid()
      ensures rc == ok
      ensures rc ==> max == TargetMax(templateMax, old(max)) && startup == TargetStartup(templateMax, templateStartup)
      ensures rc ==> max == (if templateMax == 0 then old(max) else templateMax)
      ensures rc && templateStartup != 0 ==> startup == templateStartup
      ensures rc && templateStartup == 0 ==> startup == templateMax
      ensures !rc ==> || (max == old(max) && startup in {old(startup), 1})
                      || (max == TargetMax(templateMax, old(max)) && startup == 1)
      ensures Ordered(TargetStartup(templateMax, templateStartup), TargetMax(templateMax, old(max))) ==>
                refusals == old(refusals)
      ensures old(fates) == [] ==>
                (rc <==> Ordered(TargetStartup(templateMax, templateStartup), TargetMax(templateMax, old(max))))
    {
      ok := true;
      var maxVcpus, startupVcpus := junkMax, junkStartup;
      rc := SetStartup(1);
      if templateMax != 0 {
        rc := Call(true);
        if rc {
          maxVcpus := max;
        }
        if templateMax != maxVcpus {
          rc := SetMax(templateMax);
        }
      }
      if templateStartup != 0 {
        rc := Call(true);
        if rc {
          startupVcpus := startup;
        }
        if templateStartup != startupVcpus {
          rc := SetStartup(templateStartup);
        }
      } else {
        rc := Call(true);
        if rc {
          startupVcpus := startup;
        }
        if templateMax != startupVcpus {
          rc := SetStartup(templateMax);
        }
      }
    }
  }

  /** The comparison with the limit, whatever the field and the operation. */
  lemma LimitLetsThrough(field: int64, op: Operation, amount: uint64)
    ensures Combine(field, op, amount) <= VCPUS_MAX <==> Passes(Exact(field, op, amount))
    ensures -TWO_63 <= Exact(field, op, amount) < TWO_63 ==> Combine(field, op, amount) == Exact(field, op, amount)
    ensures op == Modify && amount >= TWO_63 ==> Combine(field, op, amount) < 0
  {
    var exact := Exact(field, op, amount);
    if exact < -TWO_63 {
      Wraps(exact, exact + TWO_64);
    } else if exact >= TWO_63 {
      Wraps(exact, exact - TWO_64);
    }
  }

  lemma Wraps(exact: int, field: int64)
    requires field == exact + TWO_64 || field == exact - TWO_64
    ensures ToInt64(exact) == field
  {
  }

  /** The limit means what it says on the exact count, letting through those up to eight and
      stopping the others, exactly when the count stays clear of two ranges: those past the
      signed field that wrap to something small, and those below it that wrap to something big. */
  lemma LimitHonouredIff(field: int64, op: Operation, amount: uint64)
    ensures var exact := Exact(field, op, amount);
            (Combine(field, op, amount) <= VCPUS_MAX <==> exact <= VCPUS_MAX) <==>
              !(TWO_63 <= exact <= TWO_64 + VCPUS_MAX) && !(VCPUS_MAX - TWO_64 < exact < -TWO_63)
  {
    LimitLetsThrough(field, op, amount);
  }

  /** A full VM passes the limit again when so many processors are added that the field wraps, or
      when it is to have 2^63 of them; and it is refused the removal of more than 2^63 + 8. */
  lemma HugeRequests()
    ensures Combine(8, Add, TWO_63 - 8) == -TWO_63
    ensures Combine(8, Modify, TWO_63) == -TWO_63
    ensures Combine(8, Delete, TWO_63 + 9) == TWO_63 - 1
  {
    Wraps(TWO_63, -TWO_63);
    Wraps(-TWO_63 - 1, TWO_63 - 1);
  }

  /** A request that names a quantity leads, by way of the record and on any VM, to a change Xen
      never refuses for ordering, exactly when it asks for at least one processor, fits in the
      signed field, and reserves no more than it asks for. */
  lemma RequestIsOrderedIff(quantity: uint64, reservation: uint64, currentMax: int)
    requires currentMax >= 1
    ensures var max := Combine(0, Modify, quantity);
            var startup := if reservation != 0 then Combine(0, Modify, reservation) else max;
            Ordered(TargetStartup(max, startup), TargetMax(max, currentMax)) <==>
              || (1 <= quantity < TWO_63 && reservation <= quantity)
              || (quantity == 0 && 1 <= reservation <= currentMax && reservation < TWO_63)
  {
    LimitLetsThrough(0, Modify, quantity);
    LimitLetsThrough(0, Modify, reservation);
  }
}
