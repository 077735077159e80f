/** The Xen side of a job: a session whose error flag is sticky, the task record that
    carries the job's progress, one VM and one host.

    `XenState` gives every remote call its meaning as a function on values; the class `Xen`
    is the mutable session the callbacks drive, call by call. */
module XenServer {
  import opened Wrappers

  /** The remote calls the job callbacks make. */
  datatype Rpc = TaskGetRecord | TaskSetOtherConfig | VmGetPowerState | VmOperation
               | HostGetEnabled | HostGetAllowedOperations | HostEnable | HostDisable
               | HostRemoveFromOtherConfig | HostAddToOtherConfig | HostOperation

  /** The texts a job can leave in its task record. `FromXen` is the error description libxen
      keeps for the call that failed last. */
  datatype Text = Empty | UnknownError | NoPowerState | AlreadyActive | AlreadyDisabled
                | NotActiveToReboot | NotActiveToPause | NotActiveToSuspend | InvalidRequest
                | UnknownRequest | FromXen(call: Option<Rpc>)

  /** A libxen session. Once `ok` is false no later call reaches the server. `fates` decides,
      call by call, whether a call that does reach the server succeeds; it may be any
      sequence, and calls past its end succeed. */
  datatype Link = Link(ok: bool, error: Option<Rpc>, fates: seq<bool>) {

    /** Whether a call made now succeeds; `accepted` is false when the server would refuse it. */
    predicate Succeeds(accepted: bool) {
      ok && accepted && (fates == [] || fates[0])
    }

    function Issue(call: Rpc, accepted: bool): Link {
      var rest := if fates == [] then [] else fates[1..];
      if !ok then this
      else if Succeeds(accepted) then this.(fates := rest)
      else Link(false, Some(call), rest)
    }

    /** RESET_XEN_ERROR: forget a previous error and its description. */
    function Reset(): Link {
      if ok then this else Link(true, None, fates)
    }
  }

  /** None of the first `n` calls is made to fail. */
  predicate FirstSucceed(fates: seq<bool>, n: nat) {
    forall k :: 0 <= k < n && k < |fates| ==> fates[k]
  }

  datatype PowerState = Halted | Paused | Running | Suspended

  datatype VmOp = Start | Unpause | Resume | CleanShutdown | HardShutdown
                | CleanReboot | HardReboot | Pause | Suspend

  /** The power state a VM is in once the operation has succeeded. */
  function Target(op: VmOp): PowerState {
    match op
    case Start | Unpause | Resume | CleanReboot | HardReboot => Running
    case CleanShutdown | HardShutdown => Halted
    case Pause => Paused
    case Suspend => PowerState.Suspended
  }

  datatype HostAllowed = PowerOnAllowed | OtherAllowed(code: nat)

  /** `known`: the host handle is valid; `maintenanceKey`: other_config holds MAINTENANCE_MODE. */
  datatype HostFlags = HostFlags(known: bool, enabled: bool, maintenanceKey: bool, allowed: seq<HostAllowed>) {

    /** The key that makes XenCenter show maintenance mode is only there on a disabled host. */
    predicate Consistent() {
      maintenanceKey ==> !enabled
    }
  }

  datatype HostOp = Shutdown | Reboot | PowerOn

  const JOB_NEW := 2
  const JOB_RUNNING := 4
  const JOB_COMPLETED := 7
  const JOB_EXCEPTION := 10

  /** What a job keeps in its Xen task's other_config. `errorCode` is absent until first written. */
  datatype TaskRecord = TaskRecord(state: int, percent: int, errorCode: Option<int>,
                                   description: Text, errorDescription: Text) {

    /** The map updates one progress report makes; a missing text leaves both texts alone. */
    function Rewrite(newState: int, newPercent: int, code: int, text: Option<Text>): TaskRecord {
      match text
      case None => TaskRecord(newState, newPercent, Some(code), description, errorDescription)
      case Some(t) =>
        if code != 0 then TaskRecord(newState, newPercent, Some(code), Empty, t)
        else TaskRecord(newState, newPercent, Some(code), t, Empty)
    }
  }

  const NEW_RECORD := TaskRecord(JOB_NEW, 0, None, Empty, Empty)

  /** `power` is None when the VM handle is no longer valid. `history` lists every version of
      the task record Xen has stored; `vmOps` every VM operation that reached the server;
      `hostDone` every host operation that succeeded. */
  datatype XenState = XenState(link: Link, history: seq<TaskRecord>,
                               power: Option<PowerState>, vmOps: seq<VmOp>,
                               host: HostFlags, hostDone: seq<HostOp>) {

    function Call(name: Rpc, accepted: bool): XenState {
      this.(link := link.Issue(name, accepted))
    }

    /** job_change_state: read the task record, write back the updated map. */
    function ChangeState(state: int, percent: int, code: int, text: Option<Text>): XenState
      requires history != []
    {
      var read := this.(link := link.Reset()).Call(TaskGetRecord, true);
      if !read.link.ok then read
      else
        var written := read.Call(TaskSetOtherConfig, true);
        if !written.link.ok then written
        else written.(history := history + [history[|history| - 1].Rewrite(state, percent, code, text)])
    }

    function GetPowerState(): XenState {
      Call(VmGetPowerState, power.Some?)
    }

    function Operate(op: VmOp): XenState {
      var after := Call(VmOperation, power.Some?);
      if !link.ok then this
      else after.(vmOps := vmOps + [op], power := if after.link.ok then Some(Target(op)) else power)
    }

    function GetEnabled(): XenState {
      Call(HostGetEnabled, host.known)
    }

    function GetAllowed(): XenState {
      Call(HostGetAllowedOperations, host.known)
    }

    function SetEnabled(value: bool): XenState {
      var after := Call(if value then HostEnable else HostDisable, host.known);
      if after.link.ok then after.(host := host.(enabled := value)) else after
    }

    function RemoveKey(): XenState {
      var after := Call(HostRemoveFromOtherConfig, host.known);
      if after.link.ok then after.(host := host.(maintenanceKey := false)) else after
    }

    /** Adding a key that is already there is refused. */
    function AddKey(): XenState {
      var after := Call(HostAddToOtherConfig, host.known && !host.maintenanceKey);
      if after.link.ok then after.(host := host.(maintenanceKey := true)) else after
    }

    /** Shutting down or rebooting is refused unless the host has been disabled. */
    function HostOperate(op: HostOp): XenState {
      var after := Call(HostOperation, host.known && (op == PowerOn || !host.enabled));
      if after.link.ok then after.(hostDone := hostDone + [op]) else after
    }

    /** The callback's direct assignments to `session->xen->ok`. */
    function Force(value: bool): XenState {
      this.(link := link.(ok := value))
    }
  }

  class Xen {
    var ok: bool
    var error: Option<Rpc>
    var fates: seq<bool>
    var history: seq<TaskRecord>
    var power: Option<PowerState>
    var vmOps: seq<VmOp>
    var known: bool
    var enabled: bool
    var maintenanceKey: bool
    var allowed: seq<HostAllowed>
    var hostDone: seq<HostOp>

    function State(): XenState
      reads this
    {
      XenState(Link(ok, error, fates), history, power, vmOps,
               HostFlags(known, enabled, maintenanceKey, allowed), hostDone)
    }

    method Call(name: Rpc, accepted: bool) returns (success: bool)
      modifies this
      ensures State() == old(State()).Call(name, accepted)
      ensures success == ok
    {
      if ok {
        if !accepted || (fates != [] && !fates[0]) {
          ok := false;
          error := Some(name);
        }
        if fates != [] {
          fates := fates[1..];
        }
      }
      return ok;
    }

    method ResetError()
      modifies this
      ensures State() == old(State()).(link := old(State()).link.Reset())
    {
      if !ok {
        ok := true;
        error := None;
      }
    }

    method ChangeState(state: int, percent: int, code: int, text: Option<Text>)
      requires history != []
      modifies this
      ensures State() == old(State()).ChangeState(state, percent, code, text)
      ensures history != []
    {
      ResetError();
      var success := Call(TaskGetRecord, true);
      if !success {
        return;
      }
      var record := history[|history| - 1];
      record := record.(percent := percent);
      record := record.(state := state);
      record := record.(errorCode := Some(code));
      if text.Some? {
        if code != 0 {
          record := record.(description := Empty, errorDescription := text.value);
        } else {
          record := record.(description := text.value, errorDescription := Empty);
        }
      }
      success := Call(TaskSetOtherConfig, true);
      if success {
        history := history + [record];
      }
    }

    method GetPowerState() returns (success: bool)
      modifies this
      ensures State() == old(State()).GetPowerState() && success == ok
    {
      success := Call(VmGetPowerState, power.Some?);
    }

    method Operate(op: VmOp) returns (success: bool)
      modifies this
      ensures State() == old(State()).Operate(op) && success == ok
    {
      if !ok {
        return false;
      }
      success := Call(VmOperation, power.Some?);
      vmOps := vmOps + [op];
      if success {
        power := Some(Target(op));
      }
    }

    method GetEnabled() returns (success: bool)
      modifies this
      ensures State() == old(State()).GetEnabled() && success == ok
    {
      success := Call(HostGetEnabled, known);
    }

    method GetAllowed() returns (success: bool)
      modifies this
      ensures State() == old(State()).GetAllowed() && success == ok
    {
      success := Call(HostGetAllowedOperations, known);
    }

    method SetEnabled(value: bool) returns (success: bool)
      modifies this
      ensures State() == old(State()).SetEnabled(value) && success == ok
    {
      success := Call(if value then HostEnable else HostDisable, known);
      if success {
        enabled := value;
      }
    }

    method RemoveKey() returns (success: bool)
      modifies this
      ensures State() == old(State()).RemoveKey() && success == ok
    {
      success := Call(HostRemoveFromOtherConfig, known);
      if success {
        maintenanceKey := false;
      }
    }

    method AddKey() returns (success: bool)
      modifies this
      ensures State() == old(State()).AddKey() && success == ok
    {
      success := Call(HostAddToOtherConfig, known && !maintenanceKey);
      if success {
        maintenanceKey := true;
      }
    }

    method HostOperate(op: HostOp) returns (success: bool)
      modifies this
      ensures State() == old(State()).HostOperate(op) && success == ok
    {
      success := Call(HostOperation, known && (op == PowerOn || !enabled));
      if success {
        hostDone := hostDone + [op];
      }
    }
  }
}
