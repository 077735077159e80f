/** The callback that moves a host to a requested state. Shutdown and reboot are bracketed by
    entering and leaving maintenance mode, across errors of the sticky session. */
module HostStateChange {
  import opened Wrappers
  import opened XenServer
  import opened JobReport

  const REQUEST_ENABLED := 2
  const REQUEST_DISABLED := 3
  const REQUEST_SHUT_DOWN := 4
  const REQUEST_REBOOT := 10

  /** _enter_maintenence_mode; it reports success as soon as the host is disabled. */
  function Enter(x: XenState): XenState {
    var disabled := x.SetEnabled(false);
    if disabled.link.ok then disabled.RemoveKey().AddKey() else disabled
  }

  predicate Enters(x: XenState) {
    x.SetEnabled(false).link.ok
  }

  /** _exit_maintenence_mode; it reports success when the host is enabled again. */
  function Exit(x: XenState): XenState {
    x.RemoveKey().SetEnabled(true)
  }

  /** Whether a shutdown or reboot job enters maintenance mode first. */
  predicate Brackets(x: XenState) {
    x.GetEnabled().link.ok && x.host.enabled
  }

  /** A shutdown or reboot up to and including the operation itself. */
  function TakeDown(x: XenState, op: HostOp): XenState {
    var asked := x.GetEnabled();
    (if Brackets(x) then Enter(asked) else asked).HostOperate(op)
  }

  /** Leaving maintenance mode again, with the error flag cleared for the duration. */
  function Restore(x: XenState, taken: XenState): XenState {
    if !Brackets(x) then taken
    else
      var out := Exit(taken.Force(true));
      if taken.link.ok then out else out.Force(false)
  }

  function Judge(x: XenState, requested: int): Verdict {
    if requested == REQUEST_DISABLED then
      Verdict(Enter(x), if Enters(x) then RC_COMPLETED else RC_FAILED, UnknownRequest)
    else if requested == REQUEST_SHUT_DOWN || requested == REQUEST_REBOOT then
      var taken := TakeDown(x, if requested == REQUEST_REBOOT then Reboot else Shutdown);
      Verdict(Restore(x, taken), if taken.link.ok then RC_COMPLETED else RC_FAILED, UnknownError)
    else if requested == REQUEST_ENABLED then
      var asked := x.GetAllowed();
      if !asked.link.ok then Verdict(asked, RC_FAILED, UnknownError)
      else
        var up := if x.host.allowed == [PowerOnAllowed] then asked.HostOperate(PowerOn) else Exit(asked);
        Verdict(up, if up.link.ok then RC_COMPLETED else RC_FAILED, UnknownError)
    else Verdict(x, RC_FAILED, UnknownRequest)
  }

  function RunJob(x: XenState, requested: int): XenState
    requires x.history != []
  {
    HistoryUntouched(x.ChangeState(JOB_RUNNING, 0, 0, None), requested);
    Judge(x.ChangeState(JOB_RUNNING, 0, 0, None), requested).Report()
  }

  method EnterMaintenanceMode(xen: Xen) returns (success: bool)
    modifies xen
    ensures xen.State() == Enter(old(xen.State()))
    ensures success == Enters(old(xen.State()))
  {
    success := xen.SetEnabled(false);
    if success {
      var _ := xen.RemoveKey();
      var _ := xen.AddKey();
    }
  }

  method ExitMaintenanceMode(xen: Xen) returns (success: bool)
    modifies xen
    ensures xen.State() == Exit(old(xen.State()))
    ensures success == xen.ok
  {
    var _ := xen.RemoveKey();
    success := xen.SetEnabled(true);
  }

  /** The branch shared by shutdown and reboot. */
  method Bracketed(xen: Xen, op: HostOp) returns (rc: int)
    modifies xen
    ensures var before := old(xen.State());
            && xen.State() == Restore(before, TakeDown(before, op))
            && rc == if TakeDown(before, op).link.ok then RC_COMPLETED else RC_FAILED
  {
    hide Enter, Exit;
    rc := RC_FAILED;
    var enteredMaintMode := false;
    var success := xen.GetEnabled();
    if success && xen.enabled {
      var _ := EnterMaintenanceMode(xen);
      enteredMaintMode := true;
    }
    success := xen.HostOperate(op);
    if success && xen.ok {
      rc := RC_COMPLETED;
    }
    if enteredMaintMode {
      xen.ok := true;
      var _ := ExitMaintenanceMode(xen);
      if rc != RC_COMPLETED {
        xen.ok := false;
      }
    }
  }

  /** The middle of the callback: the branches that act on the request. */
  method Act(xen: Xen, requestedState: int) returns (rc: int, errorMsg: Text)
    modifies xen
    ensures Judge(old(xen.State()), requestedState) == Verdict(xen.State(), rc, errorMsg)
  {
    rc, errorMsg := RC_FAILED, UnknownError;
    var success;
    if requestedState == REQUEST_DISABLED {
      success := EnterMaintenanceMode(xen);
      if success {
        rc := RC_COMPLETED;
      }
    }
    if requestedState == REQUEST_SHUT_DOWN {
      rc := Bracketed(xen, Shutdown);
    } else if requestedState == REQUEST_ENABLED {
      success := xen.GetAllowed();
      if success {
        if |xen.allowed| == 1 && xen.allowed[0] == PowerOnAllowed {
          success := xen.HostOperate(PowerOn);
        } else {
          success := ExitMaintenanceMode(xen);
        }
        if success {
          rc := RC_COMPLETED;
        }
      }
    } else if requestedState == REQUEST_REBOOT {
      rc := Bracketed(xen, Reboot);
    } else {
      errorMsg := UnknownRequest;
    }
  }

  method StateChangeJob(xen: Xen, requestedState: int)
    requires xen.history != []
    modifies xen
    ensures xen.State() == RunJob(old(xen.State()), requestedState)
  {
    var jobState := JOB_RUNNING;
    xen.ChangeState(jobState, 0, 0, None);
    label acting:
    var rc, errorMsg := Act(xen, requestedState);
    assert xen.history != [] by { HistoryUntouched(old@acting(xen.State()), requestedState); }
    if rc != RC_COMPLETED {
      jobState := JOB_EXCEPTION;
      if !xen.ok {
        errorMsg := FromXen(xen.error);
      }
    } else {
      jobState := JOB_COMPLETED;
      errorMsg := Empty;
    }
    xen.ChangeState(jobState, 100, rc, Some(errorMsg));
  }

  /** Acting on the host never touches the task record or the VMs. */
  lemma HistoryUntouched(x: XenState, requested: int)
    ensures SameRecord(Judge(x, requested).xen, x)
  {
    hide TakeDown, Restore;
    TakeDownUntouched(x, Shutdown);
    TakeDownUntouched(x, Reboot);
    RestoreUntouched(x, TakeDown(x, Shutdown));
    RestoreUntouched(x, TakeDown(x, Reboot));
  }

  predicate SameRecord(x: XenState, y: XenState) {
    x.history == y.history && x.power == y.power && x.vmOps == y.vmOps
  }

  lemma TakeDownUntouched(x: XenState, op: HostOp)
    ensures SameRecord(TakeDown(x, op), x)
  {
  }

  lemma RestoreUntouched(x: XenState, taken: XenState)
    ensures SameRecord(Restore(x, taken), taken)
  {
  }

  /** Maintenance bracketing, exactly. Starting enabled or disabled with a consistent key, a
      shutdown or reboot job leaves the enabled flag and the key as it found them if and only
      if it never entered maintenance mode, or the host could not be disabled in the first
      place, or both calls that leave maintenance mode succeed. */
  lemma BracketRestores(x: XenState, op: HostOp)
    requires x.link.ok && x.host.Consistent() && op != PowerOn
    ensures var taken := TakeDown(x, op);
            Restore(x, taken).host == x.host <==>
              (!Brackets(x) || !Enters(x.GetEnabled()) || Exit(taken.Force(true)).link.ok)
  {
    var asked := x.GetEnabled();
    if Brackets(x) {
      EnterMeaning(asked);
      ExitMeaning(TakeDown(x, op).Force(true));
    }
  }

  lemma EnterMeaning(x: XenState)
    ensures Enter(x).host.allowed == x.host.allowed
    ensures !Enters(x) ==> Enter(x).host == x.host && !Enter(x).link.ok
    ensures Enters(x) ==> !Enter(x).host.enabled
    ensures Enter(x).link.ok ==> Enter(x).host.maintenanceKey
    ensures Enter(x).hostDone == x.hostDone
  {
  }

  /** Stickiness orders the two exit calls: the host is only enabled once the key is gone. */
  lemma ExitMeaning(x: XenState)
    ensures Exit(x).host.allowed == x.host.allowed
    ensures Exit(x).link.ok ==> Exit(x).host.enabled && !Exit(x).host.maintenanceKey
    ensures !Exit(x).link.ok ==> Exit(x).host.enabled == x.host.enabled
    ensures Exit(x).host.maintenanceKey ==> x.host.maintenanceKey && Exit(x).host.enabled == x.host.enabled
    ensures Exit(x).hostDone == x.hostDone
  {
  }

  /** Completed is reported exactly when the shutdown or reboot itself succeeded. */
  lemma CompletedIffDone(x: XenState, requested: int)
    requires x.link.ok && (requested == REQUEST_SHUT_DOWN || requested == REQUEST_REBOOT)
    ensures var v := Judge(x, requested);
            var op := if requested == REQUEST_REBOOT then Reboot else Shutdown;
            && (v.rc == RC_COMPLETED <==> v.xen.hostDone == x.hostDone + [op])
            && (v.rc != RC_COMPLETED <==> v.xen.hostDone == x.hostDone)
  {
    EnterMeaning(x.GetEnabled());
    ExitMeaning(TakeDown(x, if requested == REQUEST_REBOOT then Reboot else Shutdown).Force(true));
  }

  /** An operation that failed is still an error after the bracket, and the reported call is the
      one that failed before the bracket was closed unless closing it failed as well. */
  lemma ErrorSurvivesBracket(x: XenState, op: HostOp)
    requires x.link.ok
    ensures var taken := TakeDown(x, op);
            var after := Restore(x, taken);
            !taken.link.ok ==>
              && !after.link.ok
              && after.link.error.Some?
              && (!Brackets(x) || Exit(taken.Force(true)).link.ok ==> after.link.error == taken.link.error)
              && (Brackets(x) && !Exit(taken.Force(true)).link.ok ==>
                    after.link.error in {Some(HostRemoveFromOtherConfig), Some(HostEnable)})
  {
  }

  lemma EnterKeepsConsistency(x: XenState)
    requires x.host.Consistent()
    ensures Enter(x).host.Consistent()
  {
  }

  lemma ExitKeepsConsistency(x: XenState)
    requires x.host.Consistent()
    ensures Exit(x).host.Consistent()
  {
  }

  lemma BracketKeepsConsistency(x: XenState, op: HostOp)
    requires x.host.Consistent()
    ensures Restore(x, TakeDown(x, op)).host.Consistent()
  {
    EnterKeepsConsistency(x.GetEnabled());
    ExitKeepsConsistency(TakeDown(x, op).Force(true));
  }

  /** Whatever is requested and whatever fails, the key never outlives maintenance mode. */
  lemma ConsistencyIsKept(x: XenState, requested: int)
    requires x.history != [] && x.host.Consistent()
    ensures RunJob(x, requested).host.Consistent()
  {
    hide Enter, Exit, TakeDown, Restore;
    var running := x.ChangeState(JOB_RUNNING, 0, 0, None);
    assert Judge(running, requested).xen.host.Consistent() by {
      EnterKeepsConsistency(running);
      ExitKeepsConsistency(running.GetAllowed());
      BracketKeepsConsistency(running, if requested == REQUEST_REBOOT then Reboot else Shutdown);
    }
    var v := Judge(running, requested);
    HistoryUntouched(running, requested);
    assert v.Report().host == v.xen.host;
  }

  /** When no call fails, every request a host understands completes, from any flags. */
  lemma NoFaultsCompletes(x: XenState, requested: int)
    requires x.history != [] && x.link.ok && x.link.fates == [] && x.host.known
    requires requested in {REQUEST_DISABLED, REQUEST_SHUT_DOWN, REQUEST_ENABLED, REQUEST_REBOOT}
    ensures Judge(x.ChangeState(JOB_RUNNING, 0, 0, None), requested).rc == RC_COMPLETED
    ensures requested == REQUEST_DISABLED ==>
              RunJob(x, requested).host == HostFlags(true, false, true, x.host.allowed)
    ensures requested == REQUEST_ENABLED && x.host.allowed != [PowerOnAllowed] ==>
              RunJob(x, requested).host == HostFlags(true, true, false, x.host.allowed)
  {
  }

  predicate Honours(requested: int) {
    requested in {2, 3, 4, 10}
  }

  /** Without failures, by the number of the request: a shut-down host is powered on, another one
      leaves maintenance mode; a host to be disabled enters it; a shutdown or reboot is carried
      out and the flags end as they began; any other request does nothing. */
  lemma ActsWithoutFaults(x: XenState, requested: int)
    requires x.link.ok && x.link.fates == [] && x.history != [] && x.host.known && x.host.Consistent()
    ensures var y := RunJob(x, requested);
            && (requested == 2 && x.host.allowed == [PowerOnAllowed] ==>
                  y.host == x.host && y.hostDone == x.hostDone + [PowerOn])
            && (requested == 2 && x.host.allowed != [PowerOnAllowed] ==>
                  y.host == HostFlags(true, true, false, x.host.allowed) && y.hostDone == x.hostDone)
            && (requested == 3 ==>
                  y.host == HostFlags(true, false, true, x.host.allowed) && y.hostDone == x.hostDone)
            && (requested == 4 ==> y.host == x.host && y.hostDone == x.hostDone + [Shutdown])
            && (requested == 10 ==> y.host == x.host && y.hostDone == x.hostDone + [Reboot])
            && (!Honours(requested) ==> y.host == x.host && y.hostDone == x.hostDone)
  {
  }

  /** Without failures all three records are stored. */
  lemma RecordsWithoutFaults(x: XenState, requested: int)
    requires x.link.ok && x.link.fates == [] && x.history == [NEW_RECORD] && x.host.known
    ensures RunJob(x, requested).history ==
              [TaskRecord(2, 0, None, Empty, Empty), TaskRecord(4, 0, Some(0), Empty, Empty),
               if Honours(requested) then TaskRecord(7, 100, Some(0), Empty, Empty)
               else TaskRecord(10, 100, Some(4), Empty, UnknownRequest)]
  {
    var running := x.ChangeState(JOB_RUNNING, 0, 0, None);
    HistoryUntouched(running, requested);
    if Honours(requested) {
      NoFaultsCompletes(x, requested);
    }
    hide Judge;
  }

  /** Under any failures, a request to enable a host that is shut down powers it on exactly when
      the job's first four calls succeed, is reported as completed exactly then, and never touches
      its flags. */
  lemma PowersOnIff(x: XenState)
    requires x.link.ok && x.history != [] && x.host.known && x.host.allowed == [PowerOnAllowed]
    ensures var running := x.ChangeState(JOB_RUNNING, 0, 0, None);
            && RunJob(x, 2).host == x.host
            && RunJob(x, 2).hostDone == (if FirstSucceed(x.link.fates, 4) then x.hostDone + [PowerOn] else x.hostDone)
            && (Judge(running, 2).rc == 0 <==> FirstSucceed(x.link.fates, 4))
  {
    hide XenState.ChangeState, Verdict.Report;
    var running := x.ChangeState(JOB_RUNNING, 0, 0, None);
    FirstCalls(x);
    HistoryUntouched(running, 2);
    ReportTouchesOnlyTheRecord(Judge(running, 2));
  }

  /** Under any failures, a request to enable any other host does so exactly when the job's first
      five calls succeed: the two of the progress report, the question what is allowed, the removal
      of the key, and the call itself. It is reported as completed exactly then. */
  lemma EnablesIff(x: XenState)
    requires x.link.ok && x.history != [] && x.host.known && !x.host.enabled && x.host.allowed != [PowerOnAllowed]
    ensures var running := x.ChangeState(JOB_RUNNING, 0, 0, None);
            && (RunJob(x, 2).host.enabled <==> FirstSucceed(x.link.fates, 5))
            && (RunJob(x, 2).host.maintenanceKey <==> x.host.maintenanceKey && !FirstSucceed(x.link.fates, 4))
            && RunJob(x, 2).hostDone == x.hostDone
            && (Judge(running, 2).rc == 0 <==> FirstSucceed(x.link.fates, 5))
  {
    hide XenState.ChangeState, Verdict.Report;
    var running := x.ChangeState(JOB_RUNNING, 0, 0, None);
    FirstCalls(x);
    HistoryUntouched(running, 2);
    ReportTouchesOnlyTheRecord(Judge(running, 2));
  }

  /** Under any failures, a request to disable a host does so exactly when the job's first three
      calls succeed, and is reported as completed exactly then. */
  lemma DisablesIff(x: XenState)
    requires x.link.ok && x.history != [] && x.host.known && x.host.enabled && x.host.Consistent()
    ensures var running := x.ChangeState(JOB_RUNNING, 0, 0, None);
            && (RunJob(x, 3).host.enabled <==> !FirstSucceed(x.link.fates, 3))
            && (RunJob(x, 3).host.maintenanceKey <==> FirstSucceed(x.link.fates, 5))
            && RunJob(x, 3).hostDone == x.hostDone
            && (Judge(running, 3).rc == 0 <==> FirstSucceed(x.link.fates, 3))
  {
    hide XenState.ChangeState, Verdict.Report;
    var running := x.ChangeState(JOB_RUNNING, 0, 0, None);
    FirstCalls(x);
    HistoryUntouched(running, 3);
    ReportTouchesOnlyTheRecord(Judge(running, 3));
  }

  /** The progress report takes two calls. */
  lemma FirstCalls(x: XenState)
    requires x.link.ok && x.history != []
    ensures var running := x.ChangeState(JOB_RUNNING, 0, 0, None);
            && (running.link.ok <==> FirstSucceed(x.link.fates, 2))
            && running.history != [] && running.host == x.host && running.hostDone == x.hostDone
            && (running.link.ok ==>
                  running.link.fates == if |x.link.fates| <= 2 then [] else x.link.fates[2..])
  {
  }

  /** Entering maintenance mode is reported as completed even when its key could not be written:
      it completes exactly when the host was disabled, and the key is there exactly when all
      three calls succeeded or it survived from before a failed removal. */
  lemma DisabledMayLackKey(x: XenState)
    requires x.link.ok && x.host.Consistent()
    ensures Judge(x, REQUEST_DISABLED).rc == RC_COMPLETED <==> Enters(x)
    ensures Enters(x) ==>
              (Enter(x).host.maintenanceKey <==>
                 Enter(x).link.ok || (!x.SetEnabled(false).RemoveKey().link.ok && x.host.maintenanceKey))
  {
  }

  lemma DisabledWithoutKeyWitness()
    ensures var x := XenState(Link(true, None, [true, true, false]), [NEW_RECORD], None, [],
                              HostFlags(true, true, false, []), []);
            && Judge(x, REQUEST_DISABLED).rc == RC_COMPLETED
            && Judge(x, REQUEST_DISABLED).xen.host == HostFlags(true, false, false, [])
            && !Judge(x, REQUEST_DISABLED).xen.link.ok
  {
  }

  /** Every stored version of the job's record follows the life of a job. */
  lemma HistoryIsAJob(x: XenState, requested: int)
    requires x.history == [NEW_RECORD]
    ensures IsJobHistory(RunJob(x, requested).history)
    ensures var h := RunJob(x, requested).history;
            RunJob(x, requested).link.ok ==>
              && IsTerminal(h[|h| - 1])
              && (h[|h| - 1].state == JOB_COMPLETED <==>
                    Judge(x.ChangeState(JOB_RUNNING, 0, 0, None), requested).rc == RC_COMPLETED)
  {
    var running := x.ChangeState(JOB_RUNNING, 0, 0, None);
    HistoryUntouched(running, requested);
    ReportClosesHistory(Judge(running, requested));
  }
}
