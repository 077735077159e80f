/** Which requested states a VM advertises, computed from the operations Xen currently allows,
    and whether the state-change callback would honour them. */
module Capabilities {
  import opened Wrappers
  import opened XenServer
  import VmStateChange

  /** An entry of a VM's allowed_operations, or of the map below. */
  datatype Operation = Undefined | Lifecycle(op: VmOp) | Another(code: nat)

  datatype MapEntry = MapEntry(dmtfVal: int, xenVal: Operation)

  const VM_OPERATION_MAP: seq<MapEntry> := [
    MapEntry(0, Undefined),
    MapEntry(2, Lifecycle(Start)),
    MapEntry(3, Lifecycle(CleanShutdown)),
    MapEntry(4, Lifecycle(CleanShutdown)),
    MapEntry(5, Undefined),
    MapEntry(6, Lifecycle(Suspend)),
    MapEntry(7, Undefined),
    MapEntry(8, Undefined),
    MapEntry(9, Lifecycle(Pause)),
    MapEntry(10, Lifecycle(CleanReboot)),
    MapEntry(11, Lifecycle(HardReboot)),
    MapEntry(12, Undefined),
    MapEntry(32768, Lifecycle(HardShutdown)),
    MapEntry(32769, Lifecycle(HardReboot))
  ]

  predicate Matches(entry: MapEntry, allowed: seq<Operation>) {
    entry.xenVal != Undefined && entry.xenVal in allowed
  }

  /** The states of the matching entries, in map order. */
  function Supported(entries: seq<MapEntry>, allowed: seq<Operation>): (states: seq<int>)
    ensures |states| <= |entries|
  {
    if entries == [] then []
    else
      var last := entries[|entries| - 1];
      Supported(entries[..|entries| - 1], allowed) + if Matches(last, allowed) then [last.dmtfVal] else []
  }

  /** Two passes over the map: the first counts, the second fills an array of that size. */
  method SetAvailableOperations(allowed: seq<Operation>) returns (found: bool, states: array<int>)
    ensures states[..] == Supported(VM_OPERATION_MAP, allowed)
    ensures found <==> states.Length > 0
    ensures fresh(states)
  {
    var capCount := CountStates(VM_OPERATION_MAP, allowed);
    states := new int[capCount];
    if capCount == 0 {
      return false, states;
    }
    FillStates(VM_OPERATION_MAP, allowed, states);
    return true, states;
  }

  method CountStates(entries: seq<MapEntry>, allowed: seq<Operation>) returns (capCount: nat)
    ensures capCount == |Supported(entries, allowed)|
  {
    capCount := 0;
    var i := 0;
    while i < |entries|
      invariant 0 <= i <= |entries|
      invariant capCount == |Supported(entries[..i], allowed)|
    {
      SupportedStep(entries, allowed, i);
      var j := 0;
      while j < |allowed|
        invariant 0 <= j <= |allowed|
        invariant entries[i].xenVal == Undefined || entries[i].xenVal !in allowed[..j]
        invariant capCount == |Supported(entries[..i], allowed)|
      {
        if entries[i].xenVal == allowed[j] && entries[i].xenVal != Undefined {
          capCount := capCount + 1;
          break;
        }
        j := j + 1;
      }
      assert j == |allowed| ==> allowed[..j] == allowed;
      i := i + 1;
    }
    assert entries[..i] == entries;
  }

  method FillStates(entries: seq<MapEntry>, allowed: seq<Operation>, states: array<int>)
    requires states.Length == |Supported(entries, allowed)|
    modifies states
    ensures states[..] == Supported(entries, allowed)
  {
    var capCount, i := 0, 0;
    while i < |entries|
      invariant 0 <= i <= |entries|
      invariant 0 <= capCount <= states.Length
      invariant states[..capCount] == Supported(entries[..i], allowed)
    {
      SupportedStep(entries, allowed, i);
      SupportedGrows(entries, allowed, i + 1);
      ghost var before := capCount;
      var j := 0;
      while j < |allowed|
        invariant 0 <= j <= |allowed|
        invariant capCount == before
        invariant entries[i].xenVal == Undefined || entries[i].xenVal !in allowed[..j]
        invariant states[..capCount] == Supported(entries[..i], allowed)
      {
        if entries[i].xenVal == allowed[j] && entries[i].xenVal != Undefined {
          assert Matches(entries[i], allowed);
          states[capCount] := entries[i].dmtfVal;
          capCount := capCount + 1;
          break;
        }
        j := j + 1;
      }
      assert j == |allowed| ==> allowed[..j] == allowed;
      i := i + 1;
    }
    assert entries[..i] == entries;
    assert states[..] == states[..capCount];
  }

  lemma SupportedStep(entries: seq<MapEntry>, allowed: seq<Operation>, i: nat)
    requires i < |entries|
    ensures Supported(entries[..i + 1], allowed) ==
            Supported(entries[..i], allowed) + if Matches(entries[i], allowed) then [entries[i].dmtfVal] else []
  {
    assert entries[..i + 1][..i] == entries[..i];
  }

  lemma SupportedGrows(entries: seq<MapEntry>, allowed: seq<Operation>, i: nat)
    requires i <= |entries|
    ensures |Supported(entries[..i], allowed)| <= |Supported(entries, allowed)|
    decreases |entries| - i
  {
    if i == |entries| {
      assert entries[..i] == entries;
    } else {
      SupportedStep(entries, allowed, i);
      SupportedGrows(entries, allowed, i + 1);
    }
  }

  predicate StrictlyIncreasing(s: seq<int>) {
    forall i, j :: 0 <= i < j < |s| ==> s[i] < s[j]
  }

  /** A state is advertised exactly when the map pairs it with an allowed operation. */
  lemma {:induction false} SupportedExactly(entries: seq<MapEntry>, allowed: seq<Operation>, d: int)
    ensures d in Supported(entries, allowed) <==>
              exists e :: e in entries && e.dmtfVal == d && Matches(e, allowed)
  {
    if entries != [] {
      var front, last := entries[..|entries| - 1], entries[|entries| - 1];
      SupportedExactly(front, allowed, d);
      assert entries == front + [last];
      assert forall e :: e in entries <==> e in front || e == last;
    }
  }

  /** The states come out in strictly increasing order, so none is listed twice. */
  lemma {:induction false} SupportedIsSorted(entries: seq<MapEntry>, allowed: seq<Operation>)
    requires forall i, j :: 0 <= i < j < |entries| ==> entries[i].dmtfVal < entries[j].dmtfVal
    ensures StrictlyIncreasing(Supported(entries, allowed))
  {
    if entries != [] {
      var front, last := entries[..|entries| - 1], entries[|entries| - 1];
      SupportedIsSorted(front, allowed);
      var states := Supported(front, allowed);
      forall k | 0 <= k < |states| ensures states[k] < last.dmtfVal {
        SupportedExactly(front, allowed, states[k]);
      }
    }
  }

  /** The operation that makes a state advertised, by the number of the state; the others never
      are. */
  function Behind(d: int): Option<VmOp> {
    match d
    case 2 => Some(Start)
    case 3 | 4 => Some(CleanShutdown)
    case 6 => Some(Suspend)
    case 9 => Some(Pause)
    case 10 => Some(CleanReboot)
    case 11 | 32769 => Some(HardReboot)
    case 32768 => Some(HardShutdown)
    case _ => None
  }

  /** Exactly which states are advertised. */
  lemma AdvertisedIff(allowed: seq<Operation>, d: int)
    ensures d in Supported(VM_OPERATION_MAP, allowed) <==>
              Behind(d).Some? && Lifecycle(Behind(d).value) in allowed
  {
    SupportedExactly(VM_OPERATION_MAP, allowed, d);
    if Behind(d).Some? && Lifecycle(Behind(d).value) in allowed {
      var k := EntryOf(d);
      assert VM_OPERATION_MAP[k] in VM_OPERATION_MAP && Matches(VM_OPERATION_MAP[k], allowed);
    }
  }

  /** Where the map lists a state that can be advertised. */
  lemma EntryOf(d: int) returns (k: nat)
    requires Behind(d).Some?
    ensures k < |VM_OPERATION_MAP| && VM_OPERATION_MAP[k] == MapEntry(d, Lifecycle(Behind(d).value))
  {
    k := match d
      case 2 => 1 case 3 => 2 case 4 => 3 case 6 => 5 case 9 => 8 case 10 => 9
      case 11 => 10 case 32768 => 12 case _ => 13;
  }

  predicate Allows(allowed: seq<Operation>, op: VmOp) {
    Lifecycle(op) in allowed
  }

  predicate ActiveOnly(allowed: seq<Operation>) {
    Allows(allowed, Suspend) || Allows(allowed, Pause) || Allows(allowed, CleanReboot)
  }

  /** The operations advertised through the map that only make sense in one power state. */
  predicate ConsistentWith(allowed: seq<Operation>, power: PowerState) {
    && (Allows(allowed, Start) ==> power == Halted)
    && (Allows(allowed, CleanShutdown) ==> power == Running)
    && (ActiveOnly(allowed) ==> power == Running)
  }

  /** The exact condition for every advertised state to be honoured. */
  predicate Honourable(allowed: seq<Operation>, power: PowerState) {
    && (Allows(allowed, Start) ==> power != Running)
    && (Allows(allowed, CleanShutdown) ==> power != Halted)
    && (ActiveOnly(allowed) ==> power == Running)
  }

  lemma HonourableIsEnough(allowed: seq<Operation>, power: PowerState, d: int)
    requires Honourable(allowed, power) && d in Supported(VM_OPERATION_MAP, allowed)
    ensures VmStateChange.Planned(d, power).Some?
  {
    SupportedExactly(VM_OPERATION_MAP, allowed, d);
    var e :| e in VM_OPERATION_MAP && e.dmtfVal == d && Matches(e, allowed);
  }

  lemma Advertises(allowed: seq<Operation>, k: nat)
    requires k < |VM_OPERATION_MAP| && Matches(VM_OPERATION_MAP[k], allowed)
    ensures VM_OPERATION_MAP[k].dmtfVal in Supported(VM_OPERATION_MAP, allowed)
  {
    var e := VM_OPERATION_MAP[k];
    assert e in VM_OPERATION_MAP;
    SupportedExactly(VM_OPERATION_MAP, allowed, e.dmtfVal);
  }

  /** An advertised state the callback refuses, when there is one. */
  lemma RefusedState(allowed: seq<Operation>, power: PowerState) returns (d: int)
    requires !Honourable(allowed, power)
    ensures d in Supported(VM_OPERATION_MAP, allowed) && VmStateChange.Planned(d, power).None?
  {
    var k := if Allows(allowed, Start) && power == Running then 1
             else if Allows(allowed, CleanShutdown) && power == Halted then 2
             else if Allows(allowed, Suspend) then 5
             else if Allows(allowed, Pause) then 8 else 9;
    Advertises(allowed, k);
    d := VM_OPERATION_MAP[k].dmtfVal;
  }

  /** Every advertised state is honoured, rather than refused as an invalid transition, exactly
      when the allowed operations fit the power state in this weaker sense. */
  lemma AdvertisedHonouredIff(allowed: seq<Operation>, power: PowerState)
    ensures Honourable(allowed, power) <==>
              forall d :: d in Supported(VM_OPERATION_MAP, allowed) ==> VmStateChange.Planned(d, power).Some?
  {
    if Honourable(allowed, power) {
      forall d | d in Supported(VM_OPERATION_MAP, allowed) ensures VmStateChange.Planned(d, power).Some? {
        HonourableIsEnough(allowed, power, d);
      }
    } else {
      var d := RefusedState(allowed, power);
    }
  }

  /** When the allowed operations fit the power state, asking for an advertised state runs the
      very operation that made it advertised. */
  lemma AdvertisedRunsItsOperation(allowed: seq<Operation>, power: PowerState, d: int)
    requires ConsistentWith(allowed, power)
    requires d in Supported(VM_OPERATION_MAP, allowed)
    ensures VmStateChange.Planned(d, power).Some?
    ensures Lifecycle(VmStateChange.Planned(d, power).value) in allowed
  {
    SupportedExactly(VM_OPERATION_MAP, allowed, d);
    var e :| e in VM_OPERATION_MAP && e.dmtfVal == d && Matches(e, allowed);
  }
}
