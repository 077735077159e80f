/** What running one queued job does to the servers, and what running a queue of them does. */
module Callbacks {
  import opened Wrappers
  import opened XenServer
  import opened JobReport
  import VmStateChange
  import HostStateChange

  /** What a job meets when the worker runs it: whether its call context and a fresh session
      can be had, and the fates of the calls made on that session. */
  datatype Env = Env(contextOk: bool, sessionOk: bool, fates: seq<bool>)

  datatype Request = VmRequest(vm: int, state: int, env: Env)
                   | HostRequest(host: int, state: int, env: Env)

  datatype Action = OnVm(vm: int, op: VmOp) | OnHost(host: int, hostOp: HostOp)

  /** `records` holds the stored history of every job run so far, in the order they ran;
      `actions` every VM operation sent and every host operation carried out. */
  datatype World = World(vms: map<int, PowerState>, hosts: map<int, HostFlags>,
                         records: seq<seq<TaskRecord>>, actions: seq<Action>)

  const NO_HOST := HostFlags(false, false, false, [])

  predicate HasSession(req: Request) {
    req.env.contextOk && req.env.sessionOk
  }

  /** The state of Xen as the callback of a request first sees it. */
  function Opening(w: World, req: Request): XenState {
    XenState(Link(true, None, req.env.fates), [NEW_RECORD],
             if req.VmRequest? && req.vm in w.vms then Some(w.vms[req.vm]) else None, [],
             if req.HostRequest? && req.host in w.hosts then w.hosts[req.host] else NO_HOST, [])
  }

  function Closing(w: World, req: Request): XenState {
    match req
    case VmRequest(_, state, _) => VmStateChange.RunJob(Opening(w, req), state)
    case HostRequest(_, state, _) => HostStateChange.RunJob(Opening(w, req), state)
  }

  function RunRequest(w: World, req: Request): World {
    if !HasSession(req) then w.(records := w.records + [[NEW_RECORD]])
    else
      var x := Closing(w, req);
      World(if req.VmRequest? && req.vm in w.vms && x.power.Some? then w.vms[req.vm := x.power.value] else w.vms,
            if req.HostRequest? && req.host in w.hosts then w.hosts[req.host := x.host] else w.hosts,
            w.records + [x.history], w.actions + Actions(x, req))
  }

  function Actions(x: XenState, req: Request): seq<Action> {
    match req
    case VmRequest(vm, _, _) => seq(|x.vmOps|, k requires 0 <= k < |x.vmOps| => OnVm(vm, x.vmOps[k]))
    case HostRequest(host, _, _) => seq(|x.hostDone|, k requires 0 <= k < |x.hostDone| => OnHost(host, x.hostDone[k]))
  }

  /** Running requests one after the other, first to last. */
  function RunAll(w: World, reqs: seq<Request>): World {
    if reqs == [] then w
    else RunRequest(RunAll(w, reqs[..|reqs| - 1]), reqs[|reqs| - 1])
  }

  lemma RunAllStep(w: World, reqs: seq<Request>, req: Request)
    ensures RunAll(w, []) == w
    ensures RunAll(w, reqs + [req]) == RunRequest(RunAll(w, reqs), req)
  {
    assert (reqs + [req])[..|reqs|] == reqs;
  }

  /** A job that gets no session has no effect; its record stays New for ever. A job only
      moves the VM or the host it names. Every stored history follows the life of a job. */
  lemma RunRequestFrame(w: World, req: Request)
    ensures var after := RunRequest(w, req);
            && (!req.env.contextOk || !req.env.sessionOk ==> after.vms == w.vms && after.hosts == w.hosts)
            && after.vms.Keys == w.vms.Keys && after.hosts.Keys == w.hosts.Keys
            && (forall v :: v in w.vms && req != VmRequest(v, req.state, req.env) ==> after.vms[v] == w.vms[v])
            && (forall h :: h in w.hosts && req != HostRequest(h, req.state, req.env) ==> after.hosts[h] == w.hosts[h])
            && |after.records| == |w.records| + 1
            && after.records[..|w.records|] == w.records
            && IsJobHistory(after.records[|w.records|])
  {
    if HasSession(req) {
      var x := Opening(w, req);
      match req
      case VmRequest(_, state, _) => VmStateChange.HistoryIsAJob(x, state);
      case HostRequest(_, state, _) => HostStateChange.HistoryIsAJob(x, state);
    }
  }

  /** A VM job that gets a session either completes, and then the VM is in the state asked for,
      or leaves the VM in the power state it had. */
  lemma VmRequestOutcome(w: World, req: Request)
    requires req.VmRequest? && HasSession(req) && req.vm in w.vms
    ensures var completed := VmStateChange.Judge(Opening(w, req), req.state).rc == RC_COMPLETED;
            RunRequest(w, req).vms[req.vm] ==
              if completed then VmStateChange.Wanted(req.state) else w.vms[req.vm]
  {
    VmStateChange.VerdictIsExact(Opening(w, req), req.state);
    VmStateChange.RunJobKeepsVerdict(Opening(w, req), req.state);
  }

  /** Exactly when a VM job moves its VM, and where to: it gets its context and its session, the
      request is one the VM honours as it is, and none of the job's first four calls fails. */
  lemma VmJobMovesIff(w: World, req: Request)
    requires req.VmRequest? && req.vm in w.vms
    ensures RunRequest(w, req).vms[req.vm] ==
              if req.env.contextOk && req.env.sessionOk
                 && VmStateChange.Honours(req.state, w.vms[req.vm]) && FirstSucceed(req.env.fates, 4) then
                VmStateChange.Destination(req.state)
              else w.vms[req.vm]
  {
    if HasSession(req) {
      VmStateChange.MovesIff(Opening(w, req), req.state);
    }
    hide VmStateChange.RunJob;
  }

  /** Without failures a VM job that is honoured sends one operation and is recorded New, Running,
      Completed; one that is not sends none and is recorded as an invalid transition. */
  lemma VmJobWithoutFaults(w: World, req: Request)
    requires req.VmRequest? && req.vm in w.vms && req.env.contextOk && req.env.sessionOk && req.env.fates == []
    ensures var after := RunRequest(w, req);
            && |after.records| == |w.records| + 1
            && |after.records[|w.records|]| == 3
            && after.records[|w.records|][2].state ==
                 (if VmStateChange.Honours(req.state, w.vms[req.vm]) then 7 else 10)
            && (!VmStateChange.Honours(req.state, w.vms[req.vm]) ==> after.actions == w.actions)
            && (VmStateChange.Honours(req.state, w.vms[req.vm]) ==>
                  exists op :: after.actions == w.actions + [OnVm(req.vm, op)])
  {
    VmStateChange.SendsWithoutFaults(Opening(w, req), req.state, w.vms[req.vm]);
    VmStateChange.RecordsWithoutFaults(Opening(w, req), req.state, w.vms[req.vm]);
    hide VmStateChange.RunJob;
    var sent := VmStateChange.RunJob(Opening(w, req), req.state).vmOps;
    assert sent != [] ==> RunRequest(w, req).actions == w.actions + [OnVm(req.vm, sent[0])];
  }

  /** What a host job does when no call fails, by the number of the request. */
  lemma HostJobWithoutFaults(w: World, req: Request)
    requires req.HostRequest? && req.host in w.hosts && req.env.contextOk && req.env.sessionOk && req.env.fates == []
    requires w.hosts[req.host].known && w.hosts[req.host].Consistent()
    ensures var was, after := w.hosts[req.host], RunRequest(w, req);
            var now := after.hosts[req.host];
            && (req.state == 2 && was.allowed == [PowerOnAllowed] ==>
                  now == was && after.actions == w.actions + [OnHost(req.host, PowerOn)])
            && (req.state == 2 && was.allowed != [PowerOnAllowed] ==>
                  now == HostFlags(true, true, false, was.allowed) && after.actions == w.actions)
            && (req.state == 3 ==> now == HostFlags(true, false, true, was.allowed) && after.actions == w.actions)
            && (req.state == 4 ==> now == was && after.actions == w.actions + [OnHost(req.host, Shutdown)])
            && (req.state == 10 ==> now == was && after.actions == w.actions + [OnHost(req.host, Reboot)])
            && (req.state !in {2, 3, 4, 10} ==> now == was && after.actions == w.actions)
  {
    HostStateChange.ActsWithoutFaults(Opening(w, req), req.state);
    hide HostStateChange.RunJob;
  }

  /** Exactly when, under any failures, a host job powers its host on, enables it or disables it. */
  lemma HostJobActsIff(w: World, req: Request)
    requires req.HostRequest? && req.host in w.hosts && req.env.contextOk && req.env.sessionOk
    requires w.hosts[req.host].known && w.hosts[req.host].Consistent()
    ensures var was, after := w.hosts[req.host], RunRequest(w, req);
            var now := after.hosts[req.host];
            && (req.state == 2 && was.allowed == [PowerOnAllowed] ==>
                  && now == was
                  && (after.actions == w.actions + [OnHost(req.host, PowerOn)] <==> FirstSucceed(req.env.fates, 4)))
            && (req.state == 2 && was.allowed != [PowerOnAllowed] && !was.enabled ==>
                  (now.enabled <==> FirstSucceed(req.env.fates, 5)))
            && (req.state == 3 && was.enabled ==>
                  && (!now.enabled <==> FirstSucceed(req.env.fates, 3))
                  && (now.maintenanceKey <==> FirstSucceed(req.env.fates, 5)))
  {
    var x := Opening(w, req);
    if req.state == 2 && x.host.allowed == [PowerOnAllowed] {
      HostStateChange.PowersOnIff(x);
      assert |RunRequest(w, req).actions| == |w.actions| + |HostStateChange.RunJob(x, 2).hostDone|;
    } else if req.state == 2 && !x.host.enabled {
      HostStateChange.EnablesIff(x);
    } else if req.state == 3 && x.host.enabled {
      HostStateChange.DisablesIff(x);
    }
    hide HostStateChange.RunJob, HostStateChange.Judge;
  }

  /** The requests that name a given VM, in order. */
  function ForVm(reqs: seq<Request>, v: int): seq<Request> {
    if reqs == [] then []
    else
      var last := reqs[|reqs| - 1];
      ForVm(reqs[..|reqs| - 1], v) + if last.VmRequest? && last.vm == v then [last] else []
  }

  /** Jobs for different VMs and hosts do not interfere: a VM ends where its own requests, run
      by themselves in the same order, would have taken it. */
  lemma {:induction false} VmSeesOnlyItsOwn(w: World, reqs: seq<Request>, v: int)
    requires v in w.vms
    ensures v in RunAll(w, reqs).vms && v in RunAll(w, ForVm(reqs, v)).vms
    ensures RunAll(w, reqs).vms[v] == RunAll(w, ForVm(reqs, v)).vms[v]
  {
    if reqs != [] {
      var front, last := reqs[..|reqs| - 1], reqs[|reqs| - 1];
      VmSeesOnlyItsOwn(w, front, v);
      RunRequestFrame(RunAll(w, front), last);
      RunRequestFrame(RunAll(w, ForVm(front, v)), last);
      if last.VmRequest? && last.vm == v {
        RunAllStep(w, ForVm(front, v), last);
        assert Opening(RunAll(w, front), last) == Opening(RunAll(w, ForVm(front, v)), last);
      } else {
        assert ForVm(reqs, v) == ForVm(front, v);
      }
    }
  }

  predicate AllConsistent(w: World) {
    forall h :: h in w.hosts ==> w.hosts[h].Consistent()
  }

  /** No sequence of jobs, under any failures, leaves a host enabled with its maintenance key,
      and all their stored histories follow the life of a job. */
  lemma {:induction false} RunAllKeepsInvariants(w: World, reqs: seq<Request>)
    requires AllConsistent(w) && w.records == []
    ensures AllConsistent(RunAll(w, reqs))
    ensures |RunAll(w, reqs).records| == |reqs|
    ensures forall k :: 0 <= k < |reqs| ==> IsJobHistory(RunAll(w, reqs).records[k])
  {
    if reqs != [] {
      var front, last := reqs[..|reqs| - 1], reqs[|reqs| - 1];
      RunAllKeepsInvariants(w, front);
      var before := RunAll(w, front);
      RunRequestFrame(before, last);
      var after := RunAll(w, reqs);
      if last.HostRequest? && HasSession(last) && last.host in before.hosts {
        HostStateChange.ConsistencyIsKept(Opening(before, last), last.state);
      }
      forall k | 0 <= k < |reqs| ensures IsJobHistory(after.records[k]) {
        if k < |front| {
          assert after.records[..|before.records|][k] == before.records[k];
        }
      }
    }
  }
}
