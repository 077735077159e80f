/** Enumerating and querying resources: the CMPI loops over a provider's cursor, with virtual
    block devices as the provider. The filter loop and the proxy both advance one index, and
    a device handle changes owner when its slot in the list is emptied. */
module ResourceEnumeration {
  import opened Wrappers

  datatype Kind = Cd | Disk | OtherKind

  /** A block device as the list names it, together with what happens when its record is
      fetched, when an instance is filled from it, and when a query is evaluated on that. */
  datatype ListedVbd = ListedVbd(handle: nat, fetchOk: bool, kind: Kind,
                     propsOk: bool, propsBreakSession: bool, evalOk: bool, matches: bool)

  datatype Rc = Ok | NotFound | Failed

  datatype BrokerCall = NewObjectPath | NewInstance | SetPropertyFilter | GetObjectPath
                      | SetNameSpace | ReturnResult

  /** The class being enumerated: only plain disks, only drives, or both. */
  datatype Wanted = OnlyDisks | OnlyDrives | Everything

  predicate Skips(w: Wanted, kind: Kind) {
    (w == OnlyDisks && kind == Cd) || (w == OnlyDrives && kind == Disk)
  }

  predicate Fetched(w: Wanted, v: ListedVbd) {
    v.fetchOk && !Skips(w, v.kind)
  }

  predicate Delivers(w: Wanted, v: ListedVbd) {
    Fetched(w, v) && v.propsOk
  }

  /** The class being enumerated shows the device: it can be fetched, it is no CD drive among plain
      disks, and no plain disk among drives. */
  predicate Visible(w: Wanted, v: ListedVbd) {
    && v.fetchOk
    && (w == OnlyDisks ==> v.kind != Cd)
    && (w == OnlyDrives ==> v.kind != Disk)
  }

  /** A query gives up at an instance that cannot be filled or evaluated. */
  predicate Stops(w: Wanted, v: ListedVbd) {
    Fetched(w, v) && (!v.propsOk || !v.evalOk)
  }

  predicate StopsBefore(w: Wanted, vs: seq<ListedVbd>, n: nat)
    requires n <= |vs|
  {
    exists k :: 0 <= k < n && Stops(w, vs[k])
  }

  /** What an enumeration delivers of the first `n` devices of a list. */
  function Delivered(w: Wanted, vs: seq<ListedVbd>, n: nat): seq<ListedVbd>
    requires n <= |vs|
  {
    if n == 0 then []
    else Delivered(w, vs, n - 1) + Single(if Delivers(w, vs[n - 1]) then Some(vs[n - 1]) else None)
  }

  /** What a query delivers of the first `n` devices: nothing more once it has given up. */
  function Queried(w: Wanted, vs: seq<ListedVbd>, n: nat): seq<ListedVbd>
    requires n <= |vs|
  {
    if n == 0 then []
    else
      var found := Fetched(w, vs[n - 1]) && vs[n - 1].matches && !StopsBefore(w, vs, n);
      Queried(w, vs, n - 1) + Single(if found then Some(vs[n - 1]) else None)
  }

  function Single(item: Option<ListedVbd>): seq<ListedVbd> {
    if item.Some? then [item.value] else []
  }

  /** A record handed to the caller: the position of its device in the list and the handle it
      took over from the slot. Releasing it frees the handle and the Xen record. */
  datatype Resource = Resource(index: nat, handle: nat, cleanupSession: bool)

  class Enumerator {
    // the resource list and its cursor
    var vbds: seq<ListedVbd>
    var contents: array<Option<nat>>
    var current: nat
    const wanted: Wanted
    // the session
    var ok: bool
    var sessionsOpened: nat
    var sessionsCleaned: nat
    // how often the handle of each device has been freed, and which Xen records are allocated
    var freed: seq<nat>
    var recordsLive: set<nat>
    // the CMPI broker
    var brokerFates: seq<bool>
    var brokerFailure: Option<BrokerCall>

    /** Each handle is in its slot, or held by the caller, or has been freed once, and only one
        of these; the record of the held device is the only one still allocated. */
    ghost predicate Owned(held: Option<nat>)
      reads this, contents
    {
      && contents.Length == |vbds| == |freed|
      && (forall k :: 0 <= k < |vbds| ==>
            (if contents[k].Some? then 1 else 0) + (if held == Some(k) then 1 else 0) + freed[k] == 1)
      && (forall k :: 0 <= k < |vbds| && contents[k].Some? ==> contents[k].value == vbds[k].handle)
      && recordsLive == (if held.Some? then {held.value} else {})
    }

    /** The slots the cursor has not reached still own their handles. */
    ghost predicate Ahead()
      reads this, contents
    {
      && contents.Length == |vbds|
      && current <= |vbds|
      && forall k :: current <= k < |vbds| ==> contents[k].Some?
    }

    constructor (wanted: Wanted, brokerFates: seq<bool>)
      ensures this.wanted == wanted && this.brokerFates == brokerFates && brokerFailure == None
      ensures sessionsOpened == sessionsCleaned == 0
      ensures fresh(contents)
    {
      this.wanted := wanted;
      this.brokerFates := brokerFates;
      brokerFailure := None;
      vbds, current, ok, sessionsOpened, sessionsCleaned := [], 0, true, 0, 0;
      freed, recordsLive := [], {};
      contents := new Option<nat>[0];
    }

    method Broker(call: BrokerCall) returns (success: bool)
      modifies this`brokerFates, this`brokerFailure
      ensures brokerFailure == if success then old(brokerFailure) else Some(call)
    {
      success := true;
      if brokerFates != [] {
        success := brokerFates[0];
        brokerFates := brokerFates[1..];
      }
      if !success {
        brokerFailure := Some(call);
      }
    }

    /** prov_pxy_begin: open a session and list the devices; a failed listing closes it again. */
    method Begin(sessionOk: bool, listing: Option<seq<ListedVbd>>) returns (rc: Rc)
      requires sessionsOpened == sessionsCleaned == 0
      modifies this`vbds, this`contents, this`current, this`ok, this`sessionsOpened, this`sessionsCleaned,
               this`freed, this`recordsLive
      ensures rc == if sessionOk && listing.Some? then Ok else Failed
      ensures sessionsOpened == if sessionOk then 1 else 0
      ensures rc == Ok ==>
                && vbds == listing.value && current == 0 && Owned(None) && Ahead()
                && sessionsCleaned == 0 && fresh(contents)
      ensures rc != Ok ==> sessionsCleaned == sessionsOpened
    {
      if !sessionOk {
        return Failed;
      }
      sessionsOpened, ok := 1, true;
      if listing.None? {
        ok := false;
        sessionsCleaned := sessionsCleaned + 1;
        return Failed;
      }
      var all := listing.value;
      vbds, current, recordsLive := all, 0, {};
      freed := seq(|all|, i => 0);
      contents := new Option<nat>[|all|](i requires 0 <= i < |all| => Some(all[i].handle));
      return Ok;
    }

    /** The provider's loop: pass over devices of the other kind, stop at the first device that
        is wanted or cannot be fetched. A wanted device's handle leaves its slot. */
    method RecordGetNext() returns (rc: Rc, res: Option<Resource>)
      requires Owned(None) && Ahead() && ok
      modifies this`current, this`ok, this`recordsLive, contents
      ensures old(current) <= current && Ahead() == (rc != Ok) && current <= |vbds|
      ensures forall k :: old(current) <= k < current ==> vbds[k].fetchOk && Skips(wanted, vbds[k].kind)
      ensures rc == NotFound <==> current == |vbds|
      ensures rc == Failed <==> current < |vbds| && !vbds[current].fetchOk
      ensures rc == Ok <==> current < |vbds| && Fetched(wanted, vbds[current])
      ensures rc == Ok ==> Visible(wanted, vbds[current])
      ensures forall k :: old(current) <= k < current ==> !Visible(wanted, vbds[k])
      ensures rc != Ok ==> res == None && Owned(None)
      ensures rc == Ok ==>
                && res == Some(Resource(current, vbds[current].handle, false))
                && Owned(Some(current))
                && forall k :: current < k < |vbds| ==> contents[k].Some?
    {
      while current <= |vbds|
        invariant old(current) <= current <= |vbds|
        invariant forall k :: old(current) <= k < current ==> vbds[k].fetchOk && Skips(wanted, vbds[k].kind)
        invariant Owned(None) && Ahead() && ok
        decreases |vbds| - current
      {
        if current == |vbds| {
          return NotFound, None;
        }
        var v := vbds[current];
        if !v.fetchOk {
          ok := false;
          return Failed, None;
        }
        recordsLive := recordsLive + {current};
        if (wanted == OnlyDisks && v.kind == Cd) || (wanted == OnlyDrives && v.kind == Disk) {
          recordsLive := recordsLive - {current};
          current := current + 1;
        } else {
          res := Some(Resource(current, contents[current].value, false));
          contents[current] := None;
          return Ok, res;
        }
      }
    }

    /** prov_pxy_getnext: clear the session's error, take the next record, and step past it
        whether or not it could be fetched. `at` is where the provider's loop stopped. */
    method GetNext() returns (rc: Rc, res: Option<Resource>, ghost at: nat)
      requires Owned(None) && Ahead()
      modifies this`current, this`ok, this`recordsLive, contents
      ensures Ahead() && old(current) <= at <= |vbds|
      ensures forall k :: old(current) <= k < at ==> vbds[k].fetchOk && Skips(wanted, vbds[k].kind)
      ensures rc == NotFound <==> at == |vbds|
      ensures rc == Failed <==> at < |vbds| && !vbds[at].fetchOk
      ensures rc == Ok <==> at < |vbds| && Fetched(wanted, vbds[at])
      ensures current == if rc == NotFound then at else at + 1
      ensures rc != Ok ==> res == None && Owned(None)
      ensures rc == Ok ==> res == Some(Resource(at, vbds[at].handle, false)) && Owned(Some(at))
    {
      ok := true;
      rc, res := RecordGetNext();
      at := current;
      if rc != Ok {
        if rc != NotFound {
          current := current + 1;
        }
        return;
      }
      current := current + 1;
    }

    /** prov_pxy_release. */
    method Release(res: Resource)
      requires Owned(Some(res.index)) && res.index < |freed|
      modifies this`freed, this`recordsLive, this`sessionsCleaned
      ensures Owned(None)
      ensures sessionsCleaned == old(sessionsCleaned) + if res.cleanupSession then 1 else 0
    {
      freed := freed[res.index := freed[res.index] + 1];
      recordsLive := recordsLive - {res.index};
      if res.cleanupSession {
        sessionsCleaned := sessionsCleaned + 1;
      }
    }

    /** prov_pxy_end: free the slots that still hold a handle, and clean up the session. */
    method End(ghost held: Option<nat>)
      requires Owned(held)
      modifies this`freed, this`sessionsCleaned, contents
      ensures |freed| == |vbds|
      ensures forall k :: 0 <= k < |vbds| ==> freed[k] == if held == Some(k) then 0 else 1
      ensures sessionsCleaned == old(sessionsCleaned) + 1
    {
      var i := 0;
      while i < contents.Length
        invariant 0 <= i <= contents.Length
        invariant Owned(held)
        invariant forall k :: 0 <= k < i ==> contents[k] == None
        invariant sessionsCleaned == old(sessionsCleaned)
      {
        if contents[i].Some? {
          freed := freed[i := freed[i] + 1];
          contents[i] := None;
        }
        i := i + 1;
      }
      sessionsCleaned := sessionsCleaned + 1;
    }

    /** prov_pxy_setproperties: start from a clear session; filling the instance may fail and
        may leave an error behind. */
    method SetProperties(v: ListedVbd) returns (success: bool)
      modifies this`ok
      ensures success == v.propsOk && ok == !v.propsBreakSession
    {
      ok := true;
      if v.propsBreakSession {
        ok := false;
      }
      success := v.propsOk;
    }

    /** The two broker calls that start every round. */
    method NewRound() returns (success: bool)
      modifies this`brokerFates, this`brokerFailure
      ensures success ==> brokerFailure == old(brokerFailure)
      ensures !success ==> brokerFailure in {Some(NewObjectPath), Some(NewInstance)}
    {
      success := Broker(NewObjectPath);
      if success {
        success := Broker(NewInstance);
      }
    }

    /** The part of an enum_call round that follows a fetched record. `goOn` is false when the
        loop is left; `given` when the instance was returned to the client. */
    method Deliver(res: Resource, filtered: bool) returns (goOn: bool, given: bool)
      requires res.index < |vbds| && Owned(Some(res.index)) && !res.cleanupSession && brokerFailure == None
      modifies this`ok, this`freed, this`recordsLive, this`sessionsCleaned, this`brokerFates, this`brokerFailure
      ensures goOn <==> brokerFailure == None
      ensures goOn ==> given == vbds[res.index].propsOk
      ensures !goOn ==> !given
      ensures brokerFailure == Some(SetPropertyFilter) ==> Owned(Some(res.index))
      ensures brokerFailure != Some(SetPropertyFilter) ==> Owned(None)
      ensures brokerFailure == Some(SetPropertyFilter) ==> filtered
      ensures sessionsCleaned == old(sessionsCleaned)
    {
      if filtered {
        goOn := Broker(SetPropertyFilter);
        if !goOn {
          return false, false;
        }
      }
      var filled := SetProperties(vbds[res.index]);
      Release(res);
      if !filled {
        return true, false;
      }
      goOn := Broker(GetObjectPath);
      if goOn {
        goOn := Broker(SetNameSpace);
      }
      if goOn {
        goOn := Broker(ReturnResult);
      }
      given := goOn;
    }

    /** One round of the loop of enum_call: `goOn` is false when the loop is left, `gave` tells
        whether an instance was returned to the client. */
    method EnumRound(filtered: bool)
      returns (goOn: bool, gave: Option<ListedVbd>, ghost leaked: Option<nat>)
      requires Owned(None) && Ahead() && brokerFailure == None
      modifies this`current, this`ok, this`freed, this`recordsLive, this`sessionsCleaned,
               this`brokerFates, this`brokerFailure, contents
      ensures Owned(leaked) && sessionsCleaned == old(sessionsCleaned)
      ensures goOn ==> brokerFailure == None && leaked == None && old(current) < current
      ensures Ahead()
      ensures goOn ==> Delivered(wanted, vbds, current) == Delivered(wanted, vbds, old(current)) + Single(gave)
      ensures !goOn ==> gave == None
      ensures !goOn && brokerFailure == None ==>
                current == |vbds| && Delivered(wanted, vbds, current) == Delivered(wanted, vbds, old(current))
      ensures leaked.Some? <==> brokerFailure == Some(SetPropertyFilter)
      ensures leaked.Some? ==> leaked.value < |vbds| && filtered
    {
      hide Delivered, Queried, Stops, StopsBefore, Fetched, Skips;
      gave, leaked := None, None;
      goOn := NewRound();
      if !goOn {
        return;
      }
      ghost var start := current;
      var rc, res, at := GetNext();
      if rc == NotFound {
        SkipMeansNothing(wanted, vbds, start, at);
        return false, None, None;
      }
      StepMeans(wanted, vbds, start, at);
      if rc != Ok {
        return;
      }
      var given;
      goOn, given := Deliver(res.value, filtered);
      if !goOn {
        leaked := if brokerFailure == Some(SetPropertyFilter) then Some(at) else None;
      }
      if given {
        gave := Some(vbds[res.value.index]);
      }
    }

    /** The loop of enum_call. */
    method EnumLoop(filtered: bool) returns (status: Rc, results: seq<ListedVbd>, ghost leaked: Option<nat>)
      requires Owned(None) && Ahead() && brokerFailure == None && current == 0
      modifies this`current, this`ok, this`freed, this`recordsLive, this`sessionsCleaned,
               this`brokerFates, this`brokerFailure, contents
      ensures Owned(leaked) && sessionsCleaned == old(sessionsCleaned)
      ensures status == if brokerFailure == None then Ok else Failed
      ensures results <= Delivered(wanted, vbds, |vbds|)
      ensures brokerFailure == None ==> results == Delivered(wanted, vbds, |vbds|)
      ensures leaked.Some? <==> brokerFailure == Some(SetPropertyFilter)
      ensures leaked.Some? ==> leaked.value < |vbds| && filtered
    {
      status, results, leaked := Ok, [], None;
      var goOn := true;
      Grows(wanted, vbds, 0, |vbds|);
      while goOn
        invariant Owned(leaked) && sessionsCleaned == old(sessionsCleaned)
        invariant Ahead() && (goOn ==> brokerFailure == None && leaked == None)
        invariant goOn ==> results == Delivered(wanted, vbds, current)
        invariant results <= Delivered(wanted, vbds, |vbds|)
        invariant !goOn && brokerFailure == None ==> results == Delivered(wanted, vbds, |vbds|)
        invariant leaked.Some? <==> brokerFailure == Some(SetPropertyFilter)
        invariant leaked.Some? ==> leaked.value < |vbds| && filtered
        decreases goOn, |vbds| - current
      {
        var gave;
        goOn, gave, leaked := EnumRound(filtered);
        if gave.Some? {
          results := results + [gave.value];
        }
        if goOn {
          Grows(wanted, vbds, current, |vbds|);
        }
      }
      if brokerFailure.Some? {
        status := Failed;
      }
    }

    /** enum_call over a whole list. `leaked` is the position of the one device whose handle is
        never given back, if there is one. */
    method EnumCall(sessionOk: bool, listing: Option<seq<ListedVbd>>, filtered: bool)
      returns (status: Rc, results: seq<ListedVbd>, doneSent: bool, ghost leaked: Option<nat>)
      requires sessionsOpened == sessionsCleaned == 0 && brokerFailure == None
      modifies this, contents
      ensures !sessionOk || listing.None? ==> status == Failed && results == [] && !doneSent
      ensures sessionsCleaned == sessionsOpened == if sessionOk then 1 else 0
      ensures sessionOk && listing.Some? ==>
                && vbds == listing.value
                && (status == Ok <==> brokerFailure == None)
                && results <= Delivered(wanted, vbds, |vbds|)
                && (brokerFailure == None ==> results == Delivered(wanted, vbds, |vbds|))
                && (doneSent <==> status == Ok && results != [])
                && (forall v :: v in results ==> v in vbds && Visible(wanted, v) && v.propsOk)
                && (brokerFailure == None ==>
                      forall v :: v in vbds && Visible(wanted, v) && v.propsOk ==> v in results)
      ensures sessionOk && listing.Some? ==>
                && |freed| == |vbds|
                && (forall k :: 0 <= k < |vbds| ==> freed[k] == if leaked == Some(k) then 0 else 1)
                && (leaked.Some? <==> brokerFailure == Some(SetPropertyFilter))
                && (leaked.Some? ==> leaked.value < |vbds| && filtered)
    {
      hide Delivered, Visible;
      results, doneSent, leaked := [], false, None;
      status := Begin(sessionOk, listing);
      if status != Ok {
        return;
      }
      status, results, leaked := EnumLoop(filtered);
      DeliveredAre(wanted, vbds, results);
      End(leaked);
      if results != [] && status == Ok {
        doneSent := true;
      }
    }

    /** The part of an XenCommonExecQuery round that follows a fetched record; `failed` is set
        when filling the instance or evaluating the query is what leaves the loop. */
    method Evaluate(res: Resource) returns (goOn: bool, given: bool, failed: bool)
      requires res.index < |vbds| && Owned(Some(res.index)) && !res.cleanupSession && brokerFailure == None
      requires Fetched(wanted, vbds[res.index])
      modifies this`ok, this`freed, this`recordsLive, this`sessionsCleaned, this`brokerFates, this`brokerFailure
      ensures Owned(None)
      ensures goOn <==> !Stops(wanted, vbds[res.index]) && brokerFailure == None
      ensures failed <==> Stops(wanted, vbds[res.index])
      ensures goOn ==> given == vbds[res.index].matches
      ensures !goOn ==> !given
      ensures brokerFailure in {None, Some(ReturnResult)}
      ensures brokerFailure.Some? ==> !failed
      ensures sessionsCleaned == old(sessionsCleaned)
    {
      var v := vbds[res.index];
      var filled := SetProperties(v);
      Release(res);
      if !filled {
        return false, false, true;
      }
      if !v.evalOk {
        return false, false, true;
      }
      goOn, given, failed := true, false, false;
      if v.matches {
        goOn := Broker(ReturnResult);
        given := goOn;
      }
    }

    /** One round of the loop of XenCommonExecQuery. */
    method QueryRound() returns (goOn: bool, gave: Option<ListedVbd>, stopped: bool)
      requires Owned(None) && Ahead() && brokerFailure == None
      requires !StopsBefore(wanted, vbds, current)
      modifies this`current, this`ok, this`freed, this`recordsLive, this`sessionsCleaned,
               this`brokerFates, this`brokerFailure, contents
      ensures Owned(None) && sessionsCleaned == old(sessionsCleaned)
      ensures goOn ==> brokerFailure == None && !stopped && old(current) < current
      ensures Ahead()
      ensures goOn ==>
                && !StopsBefore(wanted, vbds, current)
                && Queried(wanted, vbds, current) == Queried(wanted, vbds, old(current)) + Single(gave)
      ensures !goOn ==> gave == None
      ensures !goOn && brokerFailure == None ==>
                Queried(wanted, vbds, |vbds|) == Queried(wanted, vbds, old(current))
      ensures stopped ==> StopsBefore(wanted, vbds, |vbds|)
    {
      hide Delivered, Queried, Delivers, Fetched, Skips;
      gave, stopped := None, false;
      goOn := NewRound();
      if !goOn {
        return;
      }
      ghost var start := current;
      var rc, res, at := GetNext();
      if rc == NotFound {
        SkipMeansNothing(wanted, vbds, start, at);
        return false, None, false;
      }
      StepMeans(wanted, vbds, start, at);
      if rc != Ok {
        return;
      }
      var given, failed;
      goOn, given, failed := Evaluate(res.value);
      stopped := failed;
      if stopped {
        StoppedForGood(wanted, vbds, at);
      }
      if given {
        gave := Some(vbds[res.value.index]);
      }
    }

    /** The loop of XenCommonExecQuery; `stopped` tells whether filling or evaluating left it. */
    method QueryLoop() returns (results: seq<ListedVbd>, stopped: bool)
      requires Owned(None) && Ahead() && brokerFailure == None && current == 0
      modifies this`current, this`ok, this`freed, this`recordsLive, this`sessionsCleaned,
               this`brokerFates, this`brokerFailure, contents
      ensures Owned(None) && sessionsCleaned == old(sessionsCleaned)
      ensures results <= Queried(wanted, vbds, |vbds|)
      ensures brokerFailure == None ==> results == Queried(wanted, vbds, |vbds|)
      ensures stopped ==> StopsBefore(wanted, vbds, |vbds|)
    {
      results, stopped := [], false;
      var goOn := true;
      Grows(wanted, vbds, 0, |vbds|);
      while goOn
        invariant Owned(None) && sessionsCleaned == old(sessionsCleaned)
        invariant Ahead() && (goOn ==> brokerFailure == None && !stopped && !StopsBefore(wanted, vbds, current))
        invariant goOn ==> results == Queried(wanted, vbds, current)
        invariant results <= Queried(wanted, vbds, |vbds|)
        invariant !goOn && brokerFailure == None ==> results == Queried(wanted, vbds, |vbds|)
        invariant stopped ==> StopsBefore(wanted, vbds, |vbds|)
        decreases goOn, |vbds| - current
      {
        var gave;
        goOn, gave, stopped := QueryRound();
        if gave.Some? {
          results := results + [gave.value];
        }
        if goOn {
          Grows(wanted, vbds, current, |vbds|);
        }
      }
    }

    /** XenCommonExecQuery over a whole list: nothing ever leaks, and unless the broker fails
        the results are those the query function names. */
    method ExecQuery(sessionOk: bool, listing: Option<seq<ListedVbd>>)
      returns (status: Rc, results: seq<ListedVbd>, doneSent: bool, stopped: bool)
      requires sessionsOpened == sessionsCleaned == 0 && brokerFailure == None
      modifies this, contents
      ensures !sessionOk || listing.None? ==> status == Failed && results == [] && !doneSent
      ensures sessionsCleaned == sessionsOpened == if sessionOk then 1 else 0
      ensures sessionOk && listing.Some? ==>
                && vbds == listing.value
                && results <= Queried(wanted, vbds, |vbds|)
                && (brokerFailure == None ==> results == Queried(wanted, vbds, |vbds|))
                && (status == Ok <==> brokerFailure == None && !stopped)
                && (doneSent <==> status == Ok && results != [])
                && (forall v :: v in results ==> v in vbds && Visible(wanted, v) && v.propsOk && v.evalOk && v.matches)
                && (brokerFailure == None ==>
                      forall k :: 0 <= k < |vbds| && Answers(wanted, vbds, k) ==> vbds[k] in results)
                && (stopped ==> StopsBefore(wanted, vbds, |vbds|))
      ensures sessionOk && listing.Some? ==>
                |freed| == |vbds| && forall k :: 0 <= k < |vbds| ==> freed[k] == 1
    {
      results, doneSent, stopped := [], false, false;
      status := Begin(sessionOk, listing);
      if status != Ok {
        return;
      }
      results, stopped := QueryLoop();
      QueriedAre(wanted, vbds, results);
      if brokerFailure.Some? || stopped {
        status := Failed;
      }
      End(None);
      if results != [] && status == Ok {
        doneSent := true;
      }
    }
  }

  /** Devices of the other kind contribute nothing. */
  lemma {:induction false} SkipMeansNothing(w: Wanted, vs: seq<ListedVbd>, i: nat, j: nat)
    requires i <= j <= |vs|
    requires forall k :: i <= k < j ==> vs[k].fetchOk && Skips(w, vs[k].kind)
    ensures Delivered(w, vs, i) == Delivered(w, vs, j) && Queried(w, vs, i) == Queried(w, vs, j)
    ensures StopsBefore(w, vs, j) ==> StopsBefore(w, vs, i)
    decreases j - i
  {
    if i < j {
      SkipMeansNothing(w, vs, i, j - 1);
    }
  }

  /** What one step of the cursor from `i`, stopping at `j`, adds to an enumeration and a query. */
  lemma StepMeans(w: Wanted, vs: seq<ListedVbd>, i: nat, j: nat)
    requires i <= j < |vs|
    requires forall k :: i <= k < j ==> vs[k].fetchOk && Skips(w, vs[k].kind)
    ensures Delivered(w, vs, j + 1) == Delivered(w, vs, i) + Single(if Delivers(w, vs[j]) then Some(vs[j]) else None)
    ensures !StopsBefore(w, vs, i) && !Stops(w, vs[j]) ==>
              && !StopsBefore(w, vs, j + 1)
              && Queried(w, vs, j + 1) ==
                   Queried(w, vs, i) + Single(if Fetched(w, vs[j]) && vs[j].matches then Some(vs[j]) else None)
    ensures Stops(w, vs[j]) ==> Queried(w, vs, j) == Queried(w, vs, i)
  {
    SkipMeansNothing(w, vs, i, j);
  }

  lemma {:induction false} Grows(w: Wanted, vs: seq<ListedVbd>, i: nat, n: nat)
    requires i <= n <= |vs|
    ensures Delivered(w, vs, i) <= Delivered(w, vs, n)
    ensures Queried(w, vs, i) <= Queried(w, vs, n)
  {
    if i < n {
      Grows(w, vs, i, n - 1);
    }
  }

  lemma StoppedForGood(w: Wanted, vs: seq<ListedVbd>, j: nat)
    requires j < |vs| && Stops(w, vs[j])
    ensures Queried(w, vs, |vs|) == Queried(w, vs, j)
  {
    StoppedUpTo(w, vs, j, |vs|);
  }

  lemma {:induction false} StoppedUpTo(w: Wanted, vs: seq<ListedVbd>, j: nat, n: nat)
    requires j < n <= |vs| && Stops(w, vs[j])
    ensures Queried(w, vs, n) == Queried(w, vs, j)
  {
    assert StopsBefore(w, vs, n);
    if n > j + 1 {
      StoppedUpTo(w, vs, j, n - 1);
    }
  }

  /** The enumerated instances a query's expression selects. */
  function Matching(items: seq<ListedVbd>): seq<ListedVbd> {
    if items == [] then []
    else
      var last := items[|items| - 1];
      Matching(items[..|items| - 1]) + Single(if last.evalOk && last.matches then Some(last) else None)
  }

  lemma MatchingStep(items: seq<ListedVbd>, item: Option<ListedVbd>)
    ensures Matching(items + Single(item)) ==
              Matching(items) + Single(if item.Some? && item.value.evalOk && item.value.matches then item else None)
  {
    if item.Some? {
      assert (items + Single(item))[..|items|] == items;
    } else {
      assert items + Single(item) == items;
    }
  }

  /** A match an enumeration would deliver but a query, having given up earlier, does not. */
  predicate Missed(w: Wanted, vs: seq<ListedVbd>, k: nat)
    requires k < |vs|
  {
    StopsBefore(w, vs, k) && Delivers(w, vs[k]) && vs[k].evalOk && vs[k].matches
  }

  /** Device `n` itself, where it is a matching instance. */
  function Match(w: Wanted, vs: seq<ListedVbd>, n: nat): Option<ListedVbd>
    requires n < |vs|
  {
    if Delivers(w, vs[n]) && vs[n].evalOk && vs[n].matches then Some(vs[n]) else None
  }

  /** What device `n` adds to the matching enumeration and to the query: the same, unless it is
      missed, when only the enumeration grows. */
  lemma OneDevice(w: Wanted, vs: seq<ListedVbd>, n: nat)
    requires n < |vs|
    ensures Matching(Delivered(w, vs, n + 1)) == Matching(Delivered(w, vs, n)) + Single(Match(w, vs, n))
    ensures Queried(w, vs, n + 1) ==
              if Missed(w, vs, n) then Queried(w, vs, n) else Queried(w, vs, n) + Single(Match(w, vs, n))
  {
    var item := if Delivers(w, vs[n]) then Some(vs[n]) else None;
    assert Delivered(w, vs, n + 1) == Delivered(w, vs, n) + Single(item);
    MatchingStep(Delivered(w, vs, n), item);
    QueriedStep(w, vs, n);
  }

  lemma QueriedStep(w: Wanted, vs: seq<ListedVbd>, n: nat)
    requires n < |vs|
    ensures Queried(w, vs, n + 1) ==
              if Missed(w, vs, n) then Queried(w, vs, n) else Queried(w, vs, n) + Single(Match(w, vs, n))
  {
    assert StopsBefore(w, vs, n + 1) <==> StopsBefore(w, vs, n) || Stops(w, vs[n]);
  }

  predicate NoneMissed(w: Wanted, vs: seq<ListedVbd>, n: nat)
    requires n <= |vs|
  {
    forall k :: 0 <= k < n ==> !Missed(w, vs, k)
  }

  predicate KeepsUp(w: Wanted, vs: seq<ListedVbd>, n: nat)
    requires n <= |vs|
  {
    Queried(w, vs, n) == Matching(Delivered(w, vs, n))
  }

  lemma OneMoreKeepsUp(w: Wanted, vs: seq<ListedVbd>, n: nat)
    requires n < |vs| && !Missed(w, vs, n) && KeepsUp(w, vs, n)
    ensures KeepsUp(w, vs, n + 1)
  {
    OneDevice(w, vs, n);
    hide Missed, Match, Single, Delivered, Queried, Matching;
  }

  lemma {:induction false} QueryKeepsUp(w: Wanted, vs: seq<ListedVbd>, n: nat)
    requires n <= |vs| && NoneMissed(w, vs, n)
    ensures KeepsUp(w, vs, n)
  {
    if n > 0 {
      hide KeepsUp, Missed;
      QueryKeepsUp(w, vs, n - 1);
      OneMoreKeepsUp(w, vs, n - 1);
    }
  }

  /** How far the query lags behind the matching enumeration over the first `n` devices. */
  function Lag(w: Wanted, vs: seq<ListedVbd>, n: nat): int
    requires n <= |vs|
  {
    |Matching(Delivered(w, vs, n))| - |Queried(w, vs, n)|
  }

  lemma OneDeviceLag(w: Wanted, vs: seq<ListedVbd>, n: nat)
    requires n < |vs|
    ensures Lag(w, vs, n + 1) == Lag(w, vs, n) + if Missed(w, vs, n) then 1 else 0
  {
    OneDevice(w, vs, n);
    assert Missed(w, vs, n) ==> Match(w, vs, n).Some?;
    hide Missed, Match, Delivered, Queried, Matching;
  }

  lemma NoLagAtFirst(w: Wanted, vs: seq<ListedVbd>)
    ensures Lag(w, vs, 0) == 0
  {
    assert Delivered(w, vs, 0) == [] && Queried(w, vs, 0) == [];
  }

  lemma {:induction false} QueryNeverLeads(w: Wanted, vs: seq<ListedVbd>, n: nat)
    requires n <= |vs|
    ensures Lag(w, vs, n) >= 0
  {
    if n == 0 {
      NoLagAtFirst(w, vs);
    } else {
      hide Lag, Missed;
      QueryNeverLeads(w, vs, n - 1);
      OneDeviceLag(w, vs, n - 1);
    }
  }

  /** The first missed match makes the query shorter for good. */
  lemma {:induction false} QueryFallsBehind(w: Wanted, vs: seq<ListedVbd>, k: nat, n: nat)
    requires k < n <= |vs| && Missed(w, vs, k)
    ensures Lag(w, vs, n) > 0
  {
    hide Lag, Missed;
    OneDeviceLag(w, vs, n - 1);
    if n == k + 1 {
      QueryNeverLeads(w, vs, k);
    } else {
      QueryFallsBehind(w, vs, k, n - 1);
    }
  }

  /** A query returns precisely the matching instances of the enumeration, in the same order and
      whatever fetches fail, exactly when no match lies beyond the first failed fill or failed
      evaluation. */
  lemma QueryEqualsFilteredEnumeration(w: Wanted, vs: seq<ListedVbd>)
    ensures Queried(w, vs, |vs|) == Matching(Delivered(w, vs, |vs|)) <==>
              NoneMissed(w, vs, |vs|)
    ensures !StopsBefore(w, vs, |vs|) ==> Queried(w, vs, |vs|) == Matching(Delivered(w, vs, |vs|))
  {
    assert !StopsBefore(w, vs, |vs|) ==> NoneMissed(w, vs, |vs|);
    if NoneMissed(w, vs, |vs|) {
      QueryKeepsUp(w, vs, |vs|);
    } else {
      var k :| 0 <= k < |vs| && Missed(w, vs, k);
      QueryFallsBehind(w, vs, k, |vs|);
    }
  }

  /** A device is delivered exactly when it is of the wanted kind and its fetch and its fill both
      succeed, and as often as the first `n` of the list name it. */
  predicate AsOften(w: Wanted, vs: seq<ListedVbd>, n: nat, v: ListedVbd)
    requires n <= |vs|
  {
    Times(Delivered(w, vs, n), v) == if Delivers(w, v) then Times(vs[..n], v) else 0
  }

  lemma NoneAsOften(w: Wanted, vs: seq<ListedVbd>, v: ListedVbd)
    ensures AsOften(w, vs, 0, v)
  {
    assert vs[..0] == [] && Delivered(w, vs, 0) == [];
  }

  lemma OneMoreAsOften(w: Wanted, vs: seq<ListedVbd>, n: nat, v: ListedVbd)
    requires n < |vs| && AsOften(w, vs, n, v)
    ensures AsOften(w, vs, n + 1, v)
  {
    DeliveredTimes(w, vs, n, v);
    PrefixTimes(vs, n, v);
    hide Delivered, Delivers, Times;
  }

  lemma {:induction false} DeliveredExactly(w: Wanted, vs: seq<ListedVbd>, n: nat, v: ListedVbd)
    requires n <= |vs|
    ensures AsOften(w, vs, n, v)
  {
    if n == 0 {
      NoneAsOften(w, vs, v);
    } else {
      hide AsOften;
      DeliveredExactly(w, vs, n - 1, v);
      OneMoreAsOften(w, vs, n - 1, v);
    }
  }

  /** How often a device occurs. */
  function Times(vs: seq<ListedVbd>, v: ListedVbd): nat {
    if vs == [] then 0 else Times(vs[..|vs| - 1], v) + if vs[|vs| - 1] == v then 1 else 0
  }

  lemma OneMoreTime(vs: seq<ListedVbd>, last: ListedVbd, v: ListedVbd)
    ensures Times(vs + [last], v) == Times(vs, v) + if last == v then 1 else 0
  {
    assert (vs + [last])[..|vs|] == vs;
  }

  lemma PrefixTimes(vs: seq<ListedVbd>, n: nat, v: ListedVbd)
    requires n < |vs|
    ensures Times(vs[..n + 1], v) == Times(vs[..n], v) + if vs[n] == v then 1 else 0
  {
    assert vs[..n + 1] == vs[..n] + [vs[n]];
    OneMoreTime(vs[..n], vs[n], v);
  }

  lemma DeliveredTimes(w: Wanted, vs: seq<ListedVbd>, n: nat, v: ListedVbd)
    requires n < |vs|
    ensures Times(Delivered(w, vs, n + 1), v) ==
              Times(Delivered(w, vs, n), v) + if Delivers(w, v) && vs[n] == v then 1 else 0
  {
    if Delivers(w, vs[n]) {
      assert Delivered(w, vs, n + 1) == Delivered(w, vs, n) + [vs[n]];
      OneMoreTime(Delivered(w, vs, n), vs[n], v);
    } else {
      assert Delivered(w, vs, n + 1) == Delivered(w, vs, n);
    }
  }

  /** Exactly which devices an enumeration delivers. */
  lemma {:induction false} DeliveredIff(w: Wanted, vs: seq<ListedVbd>, n: nat, v: ListedVbd)
    requires n <= |vs|
    ensures v in Delivered(w, vs, n) <==> v in vs[..n] && Visible(w, v) && v.propsOk
  {
    if n > 0 {
      DeliveredIff(w, vs, n - 1, v);
      assert vs[..n] == vs[..n - 1] + [vs[n - 1]];
    }
  }

  /** Each in its place: after what the devices before it have delivered. */
  lemma {:induction false} DeliveredInOrder(w: Wanted, vs: seq<ListedVbd>, k: nat, n: nat)
    requires k < n <= |vs| && Visible(w, vs[k]) && vs[k].propsOk
    ensures |Delivered(w, vs, k)| < |Delivered(w, vs, n)|
    ensures Delivered(w, vs, n)[|Delivered(w, vs, k)|] == vs[k]
  {
    if n > k + 1 {
      DeliveredInOrder(w, vs, k, n - 1);
    }
  }

  lemma DeliveredAre(w: Wanted, vs: seq<ListedVbd>, results: seq<ListedVbd>)
    requires results <= Delivered(w, vs, |vs|)
    ensures forall v :: v in results ==> v in vs && Visible(w, v) && v.propsOk
    ensures results == Delivered(w, vs, |vs|) ==>
              forall v :: v in vs && Visible(w, v) && v.propsOk ==> v in results
  {
    assert vs[..|vs|] == vs;
    forall v ensures v in Delivered(w, vs, |vs|) <==> v in vs && Visible(w, v) && v.propsOk {
      DeliveredIff(w, vs, |vs|, v);
    }
  }

  /** No visible device before `n` has an instance that cannot be filled or evaluated. */
  predicate NoneSpoils(w: Wanted, vs: seq<ListedVbd>, n: nat)
    requires n <= |vs|
  {
    forall k :: 0 <= k < n && Visible(w, vs[k]) ==> vs[k].propsOk && vs[k].evalOk
  }

  predicate Answers(w: Wanted, vs: seq<ListedVbd>, k: nat)
    requires k < |vs|
  {
    Visible(w, vs[k]) && vs[k].propsOk && vs[k].evalOk && vs[k].matches && NoneSpoils(w, vs, k)
  }

  /** Exactly which devices a query delivers: the matching ones up to the first that spoils it. */
  lemma {:induction false} QueriedIff(w: Wanted, vs: seq<ListedVbd>, n: nat, v: ListedVbd)
    requires n <= |vs|
    ensures v in Queried(w, vs, n) <==> exists k :: 0 <= k < n && vs[k] == v && Answers(w, vs, k)
  {
    if n > 0 {
      QueriedIff(w, vs, n - 1, v);
      StopsMeans(w, vs, n);
      StopsMeans(w, vs, n - 1);
      assert Answers(w, vs, n - 1) <==>
               Fetched(w, vs[n - 1]) && vs[n - 1].matches && !StopsBefore(w, vs, n);
    }
  }

  lemma StopsMeans(w: Wanted, vs: seq<ListedVbd>, n: nat)
    requires n <= |vs|
    ensures StopsBefore(w, vs, n) <==> !NoneSpoils(w, vs, n)
  {
    if !NoneSpoils(w, vs, n) {
      var k :| 0 <= k < n && Visible(w, vs[k]) && !(vs[k].propsOk && vs[k].evalOk);
      assert Stops(w, vs[k]);
    }
  }

  lemma {:induction false} QueriedInOrder(w: Wanted, vs: seq<ListedVbd>, k: nat, n: nat)
    requires k < n <= |vs| && Answers(w, vs, k)
    ensures |Queried(w, vs, k)| < |Queried(w, vs, n)|
    ensures Queried(w, vs, n)[|Queried(w, vs, k)|] == vs[k]
  {
    if n == k + 1 {
      StopsMeans(w, vs, n);
    } else {
      QueriedInOrder(w, vs, k, n - 1);
    }
  }

  lemma QueriedAre(w: Wanted, vs: seq<ListedVbd>, results: seq<ListedVbd>)
    requires results <= Queried(w, vs, |vs|)
    ensures forall v :: v in results ==> v in vs && Visible(w, v) && v.propsOk && v.evalOk && v.matches
    ensures results == Queried(w, vs, |vs|) ==> forall k :: 0 <= k < |vs| && Answers(w, vs, k) ==> vs[k] in results
  {
    forall v | v in Queried(w, vs, |vs|)
      ensures v in vs && Visible(w, v) && v.propsOk && v.evalOk && v.matches
    {
      QueriedIff(w, vs, |vs|, v);
    }
    forall k | 0 <= k < |vs| && Answers(w, vs, k) ensures vs[k] in Queried(w, vs, |vs|) {
      QueriedIff(w, vs, |vs|, vs[k]);
    }
  }

  /** Fetching one device by its identifier: prov_pxy_get, filling an instance, and
      prov_pxy_release, where the record does own its session. */
  class Getter {
    const wanted: Wanted
    var sessionsOpen: int
    var handlesOut: int
    var recordsOut: int

    constructor (wanted: Wanted)
      ensures this.wanted == wanted && sessionsOpen == handlesOut == recordsOut == 0
    {
      this.wanted := wanted;
      sessionsOpen, handlesOut, recordsOut := 0, 0, 0;
    }

    /** The provider's look-up; on success the record owns the handle and the Xen record. */
    method RecordGetFromId(found: bool, v: ListedVbd) returns (rc: Rc)
      modifies this`handlesOut, this`recordsOut
      ensures rc == if found && Fetched(wanted, v) then Ok else NotFound
      ensures handlesOut == old(handlesOut) + if found then 1 else 0
      ensures recordsOut == old(recordsOut) + if found && v.fetchOk then 1 else 0
    {
      if !found {
        return NotFound;
      }
      handlesOut := handlesOut + 1;
      if !v.fetchOk {
        return NotFound;
      }
      recordsOut := recordsOut + 1;
      if Skips(wanted, v.kind) {
        return NotFound;
      }
      return Ok;
    }

    /** The session is always closed again. The handle, and the Xen record once fetched, are
        given back unless the device exists but could not be fetched or is of the other kind. */
    method GetInstance(sessionOk: bool, found: bool, v: ListedVbd) returns (rc: Rc)
      modifies this
      ensures rc == Ok <==> sessionOk && found && Visible(wanted, v) && v.propsOk
      ensures sessionsOpen == old(sessionsOpen)
      ensures handlesOut == old(handlesOut) + if sessionOk && found && !Visible(wanted, v) then 1 else 0
      ensures recordsOut == old(recordsOut) +
                if sessionOk && found && v.fetchOk && !Visible(wanted, v) then 1 else 0
    {
      if !sessionOk {
        return Failed;
      }
      sessionsOpen := sessionsOpen + 1;
      rc := RecordGetFromId(found, v);
      if rc != Ok {
        sessionsOpen := sessionsOpen - 1;
        return;
      }
      var cleanupSession := true;
      if !v.propsOk {
        rc := Failed;
      }
      handlesOut := handlesOut - 1;
      recordsOut := recordsOut - 1;
      if cleanupSession {
        sessionsOpen := sessionsOpen - 1;
      }
    }
  }
}
