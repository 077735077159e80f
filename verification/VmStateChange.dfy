/** The callback that moves a VM to a requested state, run by the worker thread. */
module VmStateChange {
  import opened Wrappers
  import opened XenServer
  import opened JobReport

  const REQUEST_ENABLED := 2
  const REQUEST_DISABLED := 3
  const REQUEST_SHUT_DOWN := 4
  const REQUEST_OFFLINE := 6
  const REQUEST_QUIESCE := 9
  const REQUEST_REBOOT := 10
  const REQUEST_RESET := 11
  const REQUEST_HARD_SHUTDOWN := 32768
  const REQUEST_HARD_REBOOT := 32769

  /** The operations that serve a request, per power state; None is an invalid transition. */
  function Planned(requested: int, power: PowerState): Option<VmOp> {
    match power
    case Halted =>
      if requested == REQUEST_ENABLED then Some(Start) else AnyState(requested)
    case Paused =>
      if requested == REQUEST_ENABLED then Some(Unpause)
      else if requested in {REQUEST_DISABLED, REQUEST_SHUT_DOWN} then Some(HardShutdown)
      else AnyState(requested)
    case Suspended =>
      if requested == REQUEST_ENABLED then Some(Resume)
      else if requested in {REQUEST_DISABLED, REQUEST_SHUT_DOWN} then Some(HardShutdown)
      else AnyState(requested)
    case Running =>
      if requested in {REQUEST_DISABLED, REQUEST_SHUT_DOWN} then Some(CleanShutdown)
      else if requested == REQUEST_REBOOT then Some(CleanReboot)
      else if requested == REQUEST_QUIESCE then Some(Pause)
      else if requested == REQUEST_OFFLINE then Some(Suspend)
      else AnyState(requested)
  }

  /** The requests honoured whatever the VM is doing. */
  function AnyState(requested: int): Option<VmOp> {
    if requested == REQUEST_HARD_SHUTDOWN then Some(HardShutdown)
    else if requested in {REQUEST_RESET, REQUEST_HARD_REBOOT} then Some(HardReboot)
    else None
  }

  function Refusal(requested: int): Text {
    if requested == REQUEST_ENABLED then
      AlreadyActive
    else if requested in {REQUEST_DISABLED, REQUEST_SHUT_DOWN} then
      AlreadyDisabled
    else if requested == REQUEST_REBOOT then
      NotActiveToReboot
    else if requested == REQUEST_QUIESCE then
      NotActiveToPause
    else if requested == REQUEST_OFFLINE then
      NotActiveToSuspend
    else InvalidRequest
  }

  function Judge(x: XenState, requested: int): (v: Verdict)
    requires x.history != []
    ensures v.xen.history != []
  {
    var x1 := x.GetPowerState();
    if !x1.link.ok then
      Verdict(x1, RC_FAILED, NoPowerState)
    else
      var x2 := x1.ChangeState(JOB_RUNNING, 0, 0, None);
      match Planned(requested, x.power.value)
      case None => Verdict(x2, RC_INVALID_TRANSITION, Refusal(requested))
      case Some(op) =>
        var x3 := x2.Operate(op);
        if x3.link.ok then Verdict(x3, RC_COMPLETED, Empty)
        else Verdict(x3, RC_FAILED, UnknownError)
  }

  function RunJob(x: XenState, requested: int): XenState
    requires x.history != []
  {
    Judge(x, requested).Report()
  }

  /** The branch of the callback that picks and issues the operation. */
  method Move(xen: Xen, requestedState: int, powerState: PowerState) returns (rc: int, errorMsg: Text)
    modifies xen
    ensures Planned(requestedState, powerState).None? ==>
              && xen.State() == old(xen.State())
              && rc == RC_INVALID_TRANSITION && errorMsg == Refusal(requestedState)
    ensures Planned(requestedState, powerState).Some? ==>
              && xen.State() == old(xen.State()).Operate(Planned(requestedState, powerState).value)
              && rc == RC_FAILED && errorMsg == UnknownError
  {
    rc, errorMsg := RC_FAILED, UnknownError;
    var success;
    if requestedState == REQUEST_ENABLED {
      if powerState == Halted {
        success := xen.Operate(Start);
      } else if powerState == Paused {
        success := xen.Operate(Unpause);
      } else if powerState == PowerState.Suspended {
        success := xen.Operate(Resume);
      } else {
        errorMsg := AlreadyActive;
        rc := RC_INVALID_TRANSITION;
      }
    } else if requestedState == REQUEST_DISABLED || requestedState == REQUEST_SHUT_DOWN {
      if powerState == Running {
        success := xen.Operate(CleanShutdown);
      } else if powerState == PowerState.Suspended || powerState == Paused {
        success := xen.Operate(HardShutdown);
      } else {
        errorMsg := AlreadyDisabled;
        rc := RC_INVALID_TRANSITION;
      }
    } else if requestedState == REQUEST_REBOOT {
      if powerState == Running {
        success := xen.Operate(CleanReboot);
      } else {
        errorMsg := NotActiveToReboot;
        rc := RC_INVALID_TRANSITION;
      }
    } else if requestedState == REQUEST_HARD_SHUTDOWN {
      success := xen.Operate(HardShutdown);
    } else if requestedState == REQUEST_RESET || requestedState == REQUEST_HARD_REBOOT {
      success := xen.Operate(HardReboot);
    } else if requestedState == REQUEST_QUIESCE {
      if powerState == Running {
        success := xen.Operate(Pause);
      } else {
        errorMsg := NotActiveToPause;
        rc := RC_INVALID_TRANSITION;
      }
    } else if requestedState == REQUEST_OFFLINE {
      if powerState == Running {
        success := xen.Operate(Suspend);
      } else {
        errorMsg := NotActiveToSuspend;
        rc := RC_INVALID_TRANSITION;
      }
    } else {
      errorMsg := InvalidRequest;
      rc := RC_INVALID_TRANSITION;
    }
  }

  method StateChangeJob(xen: Xen, requestedState: int)
    requires xen.history != []
    modifies xen
    ensures xen.State() == RunJob(old(xen.State()), requestedState)
  {
    var rc := RC_FAILED;
    var errorMsg := NoPowerState;
    var state := JOB_RUNNING;
    var success := xen.GetPowerState();
    if success {
      var powerState := xen.power.value;
      xen.ChangeState(state, 0, 0, None);
      rc, errorMsg := Move(xen, requestedState, powerState);
      if rc != RC_INVALID_TRANSITION && xen.ok {
        state := JOB_COMPLETED;
        rc := RC_COMPLETED;
      }
    }
    if rc != RC_COMPLETED {
      state := JOB_EXCEPTION;
      if !xen.ok {
        errorMsg := FromXen(xen.error);
      }
    } else {
      errorMsg := Empty;
    }
    xen.ChangeState(state, 100, rc, Some(errorMsg));
  }

  /** The power state a request asks for. */
  function Wanted(requested: int): PowerState {
    if requested in {REQUEST_DISABLED, REQUEST_SHUT_DOWN, REQUEST_HARD_SHUTDOWN} then Halted
    else if requested == REQUEST_OFFLINE then PowerState.Suspended
    else if requested == REQUEST_QUIESCE then Paused
    else Running
  }

  /** The requests, by their numbers in the DMTF schema, that a VM in a given state may be sent. */
  predicate Honours(requested: int, power: PowerState) {
    || (requested == 2 && power != Running)
    || (requested in {3, 4} && power != Halted)
    || (requested in {6, 9, 10} && power == Running)
    || requested in {11, 32768, 32769}
  }

  /** Where each of them takes it. */
  function Destination(requested: int): PowerState {
    match requested
    case 3 | 4 | 32768 => Halted
    case 6 => PowerState.Suspended
    case 9 => Paused
    case _ => Running
  }

  lemma PlannedIffHonoured(requested: int, power: PowerState)
    ensures Planned(requested, power).Some? <==> Honours(requested, power)
    ensures Honours(requested, power) ==> Target(Planned(requested, power).value) == Destination(requested)
  {
  }

  /** Under any failures, what a job does to its VM: it takes it where the request asks exactly
      when the request is honoured and none of the job's first four calls fails, since a failed
      progress report keeps the operation from being sent; else it leaves it where it was. */
  lemma MovesIff(x: XenState, requested: int)
    requires x.link.ok && x.history != [] && x.power.Some?
    ensures RunJob(x, requested).power ==
              if Honours(requested, x.power.value) && FirstSucceed(x.link.fates, 4) then
                Some(Destination(requested))
              else x.power
  {
    PlannedIffHonoured(requested, x.power.value);
    RunJobKeepsVerdict(x, requested);
    var x1 := x.GetPowerState();
    var x2 := x1.ChangeState(JOB_RUNNING, 0, 0, None);
    FirstCalls(x);
    hide Planned, RunJob;
  }

  /** The three calls before the operation go through exactly when none of them is made to fail,
      and then the fourth fate is that of the operation. */
  lemma FirstCalls(x: XenState)
    requires x.link.ok && x.history != [] && x.power.Some?
    ensures var x1 := x.GetPowerState();
            && (x1.link.ok <==> FirstSucceed(x.link.fates, 1))
            && x1.history == x.history
            && (x1.link.ok ==>
                  var x2 := x1.ChangeState(JOB_RUNNING, 0, 0, None);
                  && (x2.link.ok <==> FirstSucceed(x.link.fates, 3))
                  && (x2.link.ok && x2.link.Succeeds(true) <==> FirstSucceed(x.link.fates, 4))
                  && x2.power == x.power)
  {
  }

  /** Without failures: the one operation a job sends, by the number of the request and the state
      of the VM. */
  lemma SendsWithoutFaults(x: XenState, requested: int, power: PowerState)
    requires x.link.ok && x.link.fates == [] && x.history == [NEW_RECORD] && x.power == Some(power)
    ensures var sent := RunJob(x, requested).vmOps;
            && (requested == 2 && power == Halted ==> sent == x.vmOps + [Start])
            && (requested == 2 && power == Paused ==> sent == x.vmOps + [Unpause])
            && (requested == 2 && power == PowerState.Suspended ==> sent == x.vmOps + [Resume])
            && (requested in {3, 4} && power == Running ==> sent == x.vmOps + [CleanShutdown])
            && (requested in {3, 4} && power in {Paused, PowerState.Suspended} ==> sent == x.vmOps + [HardShutdown])
            && (requested == 6 && power == Running ==> sent == x.vmOps + [Suspend])
            && (requested == 9 && power == Running ==> sent == x.vmOps + [Pause])
            && (requested == 10 && power == Running ==> sent == x.vmOps + [CleanReboot])
            && (requested == 32768 ==> sent == x.vmOps + [HardShutdown])
            && (requested in {11, 32769} ==> sent == x.vmOps + [HardReboot])
            && (!Honours(requested, power) ==> sent == x.vmOps)
  {
    RunJobKeepsVerdict(x, requested);
    hide RunJob;
  }

  /** Without failures all three records are stored: New, Running, and then Completed with no
      error, or an invalid transition with the text for it. */
  lemma RecordsWithoutFaults(x: XenState, requested: int, power: PowerState)
    requires x.link.ok && x.link.fates == [] && x.history == [NEW_RECORD] && x.power == Some(power)
    ensures RunJob(x, requested).history ==
              [TaskRecord(2, 0, None, Empty, Empty), TaskRecord(4, 0, Some(0), Empty, Empty),
               if Honours(requested, power) then TaskRecord(7, 100, Some(0), Empty, Empty)
               else TaskRecord(10, 100, Some(4097), Empty, ReasonAgainst(requested))]
  {
    PlannedIffHonoured(requested, power);
    hide Planned;
  }

  /** When it is the operation that fails, the last record says so in Xen's own words. */
  lemma RecordsAFailedOperation(x: XenState, requested: int, power: PowerState)
    requires x.link.ok && x.history == [NEW_RECORD] && x.power == Some(power) && Honours(requested, power)
    requires FirstSucceed(x.link.fates, 3) && |x.link.fates| == 4 && !x.link.fates[3]
    ensures RunJob(x, requested).history ==
              [TaskRecord(2, 0, None, Empty, Empty), TaskRecord(4, 0, Some(0), Empty, Empty),
               TaskRecord(10, 100, Some(4), Empty, FromXen(Some(VmOperation)))]
  {
    PlannedIffHonoured(requested, power);
    hide Planned;
  }

  function ReasonAgainst(requested: int): Text {
    match requested
    case 2 => AlreadyActive
    case 3 | 4 => AlreadyDisabled
    case 6 => NotActiveToSuspend
    case 9 => NotActiveToPause
    case 10 => NotActiveToReboot
    case _ => InvalidRequest
  }

  /** From a healthy session and under any failures: a job completes exactly when one operation
      reached Xen and succeeded, and the VM is then in the wanted state; in every other case the
      VM keeps its power state. A request refused as an invalid transition sends nothing. */
  lemma VerdictIsExact(x: XenState, requested: int)
    requires x.link.ok && x.history != []
    ensures var v := Judge(x, requested);
            && (v.rc == RC_COMPLETED <==>
                  exists op :: v.xen.vmOps == x.vmOps + [op] && v.xen.link.ok)
            && (v.rc == RC_COMPLETED ==> v.xen.power == Some(Wanted(requested)))
            && (v.rc != RC_COMPLETED ==> v.xen.power == x.power)
            && (v.rc == RC_INVALID_TRANSITION ==> v.xen.vmOps == x.vmOps)
            && (v.rc == RC_INVALID_TRANSITION <==>
                  x.GetPowerState().link.ok && Planned(requested, x.power.value).None?)
            && v.xen.host == x.host && v.xen.hostDone == x.hostDone
  {
    var x1 := x.GetPowerState();
    if x1.link.ok && Planned(requested, x.power.value).Some? {
      var op := Planned(requested, x.power.value).value;
      var x2 := x1.ChangeState(JOB_RUNNING, 0, 0, None);
      assert x2.vmOps == x.vmOps;
      assert Target(op) == Wanted(requested);
    }
    var v := Judge(x, requested);
    if v.rc == RC_COMPLETED {
      assert v.xen.vmOps == x.vmOps + [Planned(requested, x.power.value).value];
    }
  }

  /** The terminal record is only ever written after the verdict, so it never disturbs the VM. */
  lemma RunJobKeepsVerdict(x: XenState, requested: int)
    requires x.history != []
    ensures RunJob(x, requested).power == Judge(x, requested).xen.power
    ensures RunJob(x, requested).vmOps == Judge(x, requested).xen.vmOps
    ensures RunJob(x, requested).host == x.host
  {
  }

  /** Every stored version of the job's record follows the life of a job. */
  lemma HistoryIsAJob(x: XenState, requested: int)
    requires x.history == [NEW_RECORD]
    ensures IsJobHistory(RunJob(x, requested).history)
    ensures var h := RunJob(x, requested).history;
            RunJob(x, requested).link.ok ==>
              && IsTerminal(h[|h| - 1])
              && (h[|h| - 1].state == JOB_COMPLETED <==> Judge(x, requested).rc == RC_COMPLETED)
  {
    ReportClosesHistory(Judge(x, requested));
  }
}
