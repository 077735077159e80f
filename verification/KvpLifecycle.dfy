/** The key-value-pair daemon's set-up, prepare-migration and finish-migration commands, driven
    through XAPI and local xenstore calls any of which may fail, or take effect unheard. */
module KvpLifecycle {
  import opened Wrappers

  datatype Why =
    | XapiFailure | MapDuplicateKey | DeviceDetached | DeviceInUse | LocalFailure
    | NoInternalNetwork | NoManagementVif | ManyManagementVifs | NotInstalled | NotMigrated

  /** The result of a Python call: a value or a raised exception. */
  datatype Outcome<+T> = Done(value: T) | Raised(why: Why) {
    predicate IsFailure() { Raised? }
    function PropagateFailure<U>(): Outcome<U> requires Raised? { Raised(why) }
    function Extract(): T requires Done? { value }
  }

  /** What becomes of one call: it works; it is refused without effect; or it takes effect and the
      reply is lost, so that the caller sees an exception all the same. */
  datatype Fate = Works | Refused | LostReply

  predicate Faultless(fates: seq<Fate>) {
    forall k :: 0 <= k < |fates| ==> fates[k] == Works
  }

  /** The first `n` calls work. */
  predicate Begins(fates: seq<Fate>, n: nat) {
    n <= |fates| && forall k :: 0 <= k < n ==> fates[k] == Works
  }

  /** The first `n` calls work and the next one is refused. */
  predicate RefusedAt(fates: seq<Fate>, n: nat) {
    Begins(fates, n) && n < |fates| && fates[n] == Refused
  }

  /** The changes to an interface. */
  datatype Effect = Created | Plugged | Unplugged | Destroyed

  /** Of the changes made since `before`, the last one left an interface that is not plugged in. */
  predicate Stranding(before: seq<Effect>, after: seq<Effect>) {
    |after| > |before| && after[|after| - 1] in {Created, Unplugged}
  }

  type Ref = nat
  datatype Vif = Vif(tagged: bool, plugged: bool, device: nat, network: nat, mac: nat)
  datatype Key = KvpTag | MigrationTag | OtherKey(name: string)
  datatype StoreKey = NetworkDevice | ReattachDaemon | OtherStoreKey(name: string)
  datatype StoreValue = Mac(mac: nat) | One | OtherValue(text: string)
  datatype Network = Network(internalManagement: bool, bridgeIsXenapi: bool)

  const TRUE := "true"


  /** One VM as XAPI records it. */
  datatype Vm = Vm(vifs: map<Ref, Vif>, config: map<Key, string>, store: map<StoreKey, StoreValue>) {

    ghost function Tagged(): set<Ref> {
      set r | r in vifs && vifs[r].tagged
    }

    ghost function UserVifs(): map<Ref, Vif> {
      map r | r in vifs && !vifs[r].tagged :: vifs[r]
    }

    /** No interface has this device number. */
    ghost predicate Free(device: nat) {
      forall r :: r in vifs ==> vifs[r].device != device
    }

    /** The user's own interfaces leave the number free that comes next after their count. */
    ghost predicate Room() {
      HasRoom(UserVifs())
    }

    /** The user's own interfaces and configuration keys are the same in both. */
    ghost predicate SameForUser(that: Vm) {
      && UserVifs() == that.UserVifs()
      && config - {KvpTag, MigrationTag} == that.config - {KvpTag, MigrationTag}
    }

    /** Some management interface is not plugged in. */
    ghost predicate Detached() {
      exists r :: r in Tagged() && !vifs[r].plugged
    }

    /** `r` is the one management interface, it is plugged in, and its address is what the VM will
        find in xenstore when it boots. */
    ghost predicate Connected(r: Ref) {
      && Tagged() == {r} && r in vifs && vifs[r].plugged
      && NetworkDevice in store && store[NetworkDevice] == Mac(vifs[r].mac)
      && ReattachDaemon in store
    }

    ghost predicate Ready() {
      KvpTag in config && exists r :: Connected(r)
    }
  }

  ghost predicate HasRoom(user: map<Ref, Vif>) {
    forall r :: r in user ==> user[r].device != |user| + 1
  }

  ghost predicate WellFormed(vm: Vm, nextRef: Ref, peak: nat) {
    && (forall r :: r in vm.vifs ==> r < nextRef)
    && |vm.Tagged()| <= peak
  }

  /** XAPI, as seen by a client that works on one VM. */
  class Xapi {
    var vm: Vm
    var nextRef: Ref
    var fates: seq<Fate>
    /** The most management interfaces the VM has had at any moment. */
    ghost var peak: nat
    /** What has been done to interfaces so far. */
    ghost var effects: seq<Effect>
    const networks: seq<Network>
    /** Whether unplugging an interface that is not plugged in is an error. */
    const strict: bool

    constructor (vm: Vm, nextRef: Ref, fates: seq<Fate>, networks: seq<Network>, strict: bool)
      requires forall r :: r in vm.vifs ==> r < nextRef
      ensures Valid() && this.vm == vm && this.fates == fates && effects == []
      ensures this.networks == networks && this.strict == strict
    {
      this.vm, this.nextRef, this.fates := vm, nextRef, fates;
      this.networks, this.strict := networks, strict;
      peak, effects := |vm.Tagged()|, [];
    }

    ghost predicate Valid()
      reads this
    {
      WellFormed(vm, nextRef, peak)
    }

    /** No call is going to fail of itself. */
    ghost predicate Sound()
      reads this
    {
      Faultless(fates)
    }

    /** A management interface that no clean-up can ever unplug. */
    ghost predicate Jammed()
      reads this
    {
      strict && vm.Detached()
    }

    /** The interface is on a host-internal management network. */
    ghost predicate Internal(r: Ref)
      reads this
    {
      r in vm.vifs && vm.vifs[r].network < |networks| && networks[vm.vifs[r].network] == Network(true, true)
    }

    /** What has been done since `before` kept the VM jammed if it was; if it was not, it is now
        exactly when the last change to an interface left one unplugged and that matters here. */
    ghost predicate Jams(wasJammed: bool, before: seq<Effect>)
      reads this
    {
      && before <= effects
      && if wasJammed then Jammed() else Jammed() <==> strict && Stranding(before, effects)
    }

    /** Nothing stands in the way of a new management interface. */
    ghost predicate CanSetUp()
      reads this
    {
      HasNetwork() && vm.Room()
    }

    ghost predicate HasNetwork() {
      exists k :: 0 <= k < |networks| && networks[k] == Network(true, true)
    }

    /** One call that only reads, or whose effect the caller applies unless it was refused. */
    method Call() returns (fate: Fate)
      modifies this`fates
      ensures old(Sound()) ==> Sound() && fate == Works
      ensures old(fates) != [] ==> fate == old(fates)[0] && fates == old(fates)[1..]
    {
      fate := Works;
      if fates != [] {
        fate, fates := fates[0], fates[1..];
      }
    }

    method Read() returns (o: Outcome<()>)
      modifies this`fates
      ensures old(Sound()) ==> Sound() && o.Done?
      ensures Begins(old(fates), 1) ==> o.Done? && fates == old(fates)[1..]
      ensures o.Raised? ==> o.why == XapiFailure
    {
      var fate := Call();
      o := if fate == Works then Done(()) else Raised(XapiFailure);
    }

    /** The references of the VM's interfaces, in an order of XAPI's choosing. */
    method GetVifs() returns (o: Outcome<seq<Ref>>)
      modifies this`fates
      ensures old(Sound()) ==> Sound() && o.Done?
      ensures Begins(old(fates), 1) ==> o.Done? && fates == old(fates)[1..]
      ensures o.Raised? ==> o.why == XapiFailure
      ensures o.Done? ==>
                && (forall r :: r in o.value <==> r in vm.vifs)
                && |o.value| == |vm.vifs|
                && forall j, k :: 0 <= j < k < |o.value| ==> o.value[j] != o.value[k]
    {
      var _ :- Read();
      var left, refs := vm.vifs.Keys, [];
      while left != {}
        invariant left <= vm.vifs.Keys && |refs| + |left| == |vm.vifs|
        invariant forall r :: r in vm.vifs <==> r in left || r in refs
        invariant forall r :: r in refs ==> r !in left
        invariant forall j, k :: 0 <= j < k < |refs| ==> refs[j] != refs[k]
        decreases |left|
      {
        var r :| r in left;
        left, refs := left - {r}, refs + [r];
      }
      return Done(refs);
    }

    /** Whether the interface carries the daemon's tag. */
    method IsTagged(r: Ref) returns (o: Outcome<bool>)
      requires r in vm.vifs
      modifies this`fates
      ensures old(Sound()) ==> Sound() && o.Done?
      ensures o.Raised? ==> o.why == XapiFailure
      ensures o.Done? ==> o.value == vm.vifs[r].tagged
    {
      var _ :- Read();
      return Done(vm.vifs[r].tagged);
    }

    method Unplug(r: Ref) returns (o: Outcome<()>)
      requires Valid() && r in vm.vifs
      modifies this`fates, this`vm, this`effects
      ensures Valid()
      ensures || (vm == old(vm) && effects == old(effects) && o.Raised?)
              || (vm == SetPlugged(old(vm), r, false) && effects == old(effects) + [Unplugged])
      ensures strict && !old(vm.vifs[r].plugged) ==> o.Raised? && vm == old(vm)
      ensures old(Sound()) ==> Sound() && (o.Done? <==> strict ==> old(vm.vifs[r].plugged))
      ensures o.Raised? ==> o.why in {XapiFailure, DeviceDetached}
    {
      var fate := Call();
      if fate == Refused {
        return Raised(XapiFailure);
      }
      if strict && !vm.vifs[r].plugged {
        return Raised(DeviceDetached);
      }
      vm := vm.(vifs := vm.vifs[r := vm.vifs[r].(plugged := false)]);
      effects := effects + [Unplugged];
      assert vm.Tagged() == old(vm.Tagged());
      o := if fate == Works then Done(()) else Raised(XapiFailure);
    }

    method Destroy(r: Ref) returns (o: Outcome<()>)
      requires Valid() && r in vm.vifs
      modifies this`fates, this`vm, this`effects
      ensures Valid()
      ensures || (vm == old(vm) && effects == old(effects) && o.Raised?)
              || (vm == old(vm).(vifs := old(vm.vifs) - {r}) && effects == old(effects) + [Destroyed])
      ensures old(Sound()) ==> Sound() && o.Done?
      ensures o.Raised? ==> o.why == XapiFailure
    {
      var fate := Call();
      if fate == Refused {
        return Raised(XapiFailure);
      }
      vm := vm.(vifs := vm.vifs - {r});
      effects := effects + [Destroyed];
      FewerTagged(vm.Tagged(), old(vm.Tagged()));
      o := if fate == Works then Done(()) else Raised(XapiFailure);
    }

    /** A new tagged interface, not plugged in yet. A device number in use is refused. */
    method CreateTagged(device: nat, network: nat) returns (o: Outcome<Ref>)
      requires Valid()
      modifies this`fates, this`vm, this`nextRef, this`peak, this`effects
      ensures Valid()
      ensures || (vm == old(vm) && peak == old(peak) && effects == old(effects) && o.Raised?)
              || (effects == old(effects) + [Created] && old(vm.Free(device)) &&
                  exists mac: nat :: Creates(old(vm), old(nextRef), Vif(true, false, device, network, mac), old(peak)))
      ensures o.Done? ==> o.value == old(nextRef)
      ensures old(Sound()) ==> Sound() && (o.Done? <==> old(vm.Free(device)))
      ensures Begins(old(fates), 1) && old(vm.Free(device)) ==> o.Done? && fates == old(fates)[1..]
      ensures o.Raised? ==> o.why in {XapiFailure, DeviceInUse}
    {
      var fate := Call();
      if fate == Refused {
        return Raised(XapiFailure);
      }
      if exists r :: r in vm.vifs && vm.vifs[r].device == device {
        return Raised(DeviceInUse);
      }
      var r := nextRef;
      vm := vm.(vifs := vm.vifs[r := Vif(true, false, device, network, r)]);
      nextRef, effects := r + 1, effects + [Created];
      assert vm.Tagged() == old(vm.Tagged()) + {r};
      if |vm.Tagged()| > peak {
        peak := |vm.Tagged()|;
      }
      assert Creates(old(vm), r, Vif(true, false, device, network, r), old(peak));
      o := if fate == Works then Done(r) else Raised(XapiFailure);
    }

    ghost predicate Creates(before: Vm, r: Ref, vif: Vif, oldPeak: nat)
      reads this
    {
      && r !in before.vifs
      && vm == before.(vifs := before.vifs[r := vif])
      && peak == if |vm.Tagged()| > oldPeak then |vm.Tagged()| else oldPeak
    }

    method Plug(r: Ref) returns (o: Outcome<()>)
      requires Valid() && r in vm.vifs
      modifies this`fates, this`vm, this`effects
      ensures Valid()
      ensures || (vm == old(vm) && effects == old(effects) && o.Raised?)
              || (vm == SetPlugged(old(vm), r, true) && effects == old(effects) + [Plugged])
      ensures vm.Tagged() == old(vm.Tagged())
      ensures old(Sound()) ==> Sound() && o.Done?
      ensures RefusedAt(old(fates), 0) ==> o.Raised? && effects == old(effects)
      ensures o.Raised? ==> o.why == XapiFailure
    {
      var fate := Call();
      if fate == Refused {
        return Raised(XapiFailure);
      }
      vm := vm.(vifs := vm.vifs[r := vm.vifs[r].(plugged := true)]);
      effects := effects + [Plugged];
      assert vm.Tagged() == old(vm.Tagged());
      o := if fate == Works then Done(()) else Raised(XapiFailure);
    }

    method SetOtherConfig(config: map<Key, string>) returns (o: Outcome<()>)
      requires Valid()
      modifies this`fates, this`vm
      ensures Valid()
      ensures vm == old(vm) || vm == old(vm).(config := config)
      ensures o.Done? ==> vm.config == config
      ensures old(Sound()) ==> Sound() && o.Done?
      ensures o.Raised? ==> o.why == XapiFailure
    {
      var fate := Call();
      if fate == Refused {
        return Raised(XapiFailure);
      }
      vm := vm.(config := config);
      assert vm.Tagged() == old(vm.Tagged());
      o := if fate == Works then Done(()) else Raised(XapiFailure);
    }

    /** Adding a key that is there already is an error of its own kind. */
    method AddToOtherConfig(key: Key, value: string) returns (o: Outcome<()>)
      requires Valid()
      modifies this`fates, this`vm
      ensures Valid()
      ensures vm == old(vm) || (key !in old(vm.config) && vm == old(vm).(config := old(vm.config)[key := value]))
      ensures o.Done? ==> key !in old(vm.config) && key in vm.config && vm.config[key] == value
      ensures o.Raised? ==> o.why in {XapiFailure, MapDuplicateKey}
      ensures o == Raised(MapDuplicateKey) ==> key in old(vm.config) && vm == old(vm)
      ensures old(Sound()) ==>
                Sound() && o == if key in old(vm.config) then Raised(MapDuplicateKey) else Done(())
    {
      var fate := Call();
      if fate == Refused {
        return Raised(XapiFailure);
      }
      if key in vm.config {
        return Raised(if fate == Works then MapDuplicateKey else XapiFailure);
      }
      vm := vm.(config := vm.config[key := value]);
      assert vm.Tagged() == old(vm.Tagged());
      o := if fate == Works then Done(()) else Raised(XapiFailure);
    }

    method SetXenstoreData(store: map<StoreKey, StoreValue>) returns (o: Outcome<()>)
      requires Valid()
      modifies this`fates, this`vm
      ensures Valid()
      ensures vm == old(vm) || vm == old(vm).(store := store)
      ensures o.Done? ==> vm.store == store
      ensures old(Sound()) ==> Sound() && o.Done?
      ensures o.Raised? ==> o.why == XapiFailure
    {
      var fate := Call();
      if fate == Refused {
        return Raised(XapiFailure);
      }
      vm := vm.(store := store);
      assert vm.Tagged() == old(vm.Tagged());
      o := if fate == Works then Done(()) else Raised(XapiFailure);
    }

    /** A local command: a failing exit code goes unnoticed, failing to start it raises. */
    method Local() returns (o: Outcome<bool>)
      modifies this`fates
      ensures old(Sound()) ==> Sound() && o == Done(true)
      ensures o.Raised? ==> o.why == LocalFailure
    {
      var fate := Call();
      o := match fate
        case Works => Done(true)
        case Refused => Done(false)
        case LostReply => Raised(LocalFailure);
    }
  }

  function SetPlugged(vm: Vm, r: Ref, plugged: bool): Vm
    requires r in vm.vifs
  {
    vm.(vifs := vm.vifs[r := vm.vifs[r].(plugged := plugged)])
  }

  /** Nothing but interface `r` has changed. */
  ghost predicate OnlyAbout(r: Ref, before: Vm, after: Vm) {
    after == before.(vifs := after.vifs) && after.vifs - {r} == before.vifs - {r}
  }

  lemma FewerTagged(some: set<Ref>, all: set<Ref>)
    requires some <= all
    ensures |some| <= |all|
  {
    assert all == some + (all - some);
  }

  /** Changes add up: after some that stranded nothing, only the later ones matter. */
  lemma NothingStranded(a: seq<Effect>, b: seq<Effect>, c: seq<Effect>)
    requires a <= b <= c
    ensures a == b ==> !Stranding(a, b)
    ensures !Stranding(a, b) ==> (Stranding(a, c) <==> Stranding(b, c))
  {
  }

  lemma OneLess(refs: seq<Ref>, i: nat)
    requires i < |refs| && forall j, k :: 0 <= j < k < |refs| ==> refs[j] != refs[k]
    ensures forall r :: r in refs[i + 1..] <==> r in refs[i..] && r != refs[i]
    ensures refs[i] in refs[i..]
  {
    assert refs[i..] == [refs[i]] + refs[i + 1..];
  }

  /** Only management interfaces have changed, and there are no new ones. */
  ghost predicate OnlyCleaned(before: Vm, after: Vm) {
    && after.UserVifs() == before.UserVifs() && after.Tagged() <= before.Tagged()
    && after.config == before.config && after.store == before.store
  }

  lemma Cleaned(b: Vm, c: Vm, r: Ref)
    requires r in b.vifs && b.vifs[r].tagged && OnlyAbout(r, b, c)
    requires r in c.vifs ==> c.vifs[r].tagged
    ensures OnlyCleaned(b, c) && c.Tagged() - {r} == b.Tagged() - {r}
    ensures r !in c.vifs ==> c.Tagged() == b.Tagged() - {r}
    ensures r !in c.vifs && b.vifs[r].plugged ==> (c.Detached() <==> b.Detached())
    ensures r in c.vifs && (c.vifs[r].plugged ==> b.vifs[r].plugged) && b.Detached() ==> c.Detached()
  {
    assert forall q :: q != r ==> (q in c.vifs <==> q in c.vifs - {r});
    assert forall q :: q != r ==> (q in b.vifs <==> q in b.vifs - {r});
    assert forall q :: q != r && q in c.vifs ==> c.vifs[q] == (c.vifs - {r})[q];
    assert forall q :: q != r && q in b.vifs ==> b.vifs[q] == (b.vifs - {r})[q];
    assert c.UserVifs() == b.UserVifs();
  }

  lemma UnpluggedOnly(b: Vm, r: Ref)
    requires r in b.vifs
    ensures OnlyAbout(r, b, SetPlugged(b, r, false))
    ensures b.vifs[r].tagged ==> SetPlugged(b, r, false).Detached()
  {
    var c := SetPlugged(b, r, false);
    assert c.vifs - {r} == b.vifs - {r};
    assert b.vifs[r].tagged ==> r in c.Tagged();
  }

  class KvpClient {
    const xapi: Xapi

    constructor (xapi: Xapi)
      ensures this.xapi == xapi
    {
      this.xapi := xapi;
    }

    /** Afterwards the interface is as it was, or there but unplugged, or gone. It jams a VM that
        was not jammed exactly when it is left unplugged and that matters to the server. */
    method DestroyVif(r: Ref) returns (o: Outcome<()>)
      requires xapi.Valid() && r in xapi.vm.Tagged()
      modifies xapi`fates, xapi`vm, xapi`effects
      ensures xapi.Valid() && OnlyCleaned(old(xapi.vm), xapi.vm)
      ensures || (xapi.vm == old(xapi.vm) && xapi.effects == old(xapi.effects))
              || (xapi.vm == SetPlugged(old(xapi.vm), r, false) && xapi.effects == old(xapi.effects) + [Unplugged])
              || (r !in xapi.vm.vifs && xapi.effects == old(xapi.effects) + [Unplugged, Destroyed])
      ensures o.Done? ==> xapi.vm.Tagged() == old(xapi.vm.Tagged()) - {r} && r !in xapi.vm.vifs
      ensures xapi.Jams(old(xapi.Jammed()), old(xapi.effects))
      ensures o.Done? ==> xapi.Jammed() == old(xapi.Jammed()) && !Stranding(old(xapi.effects), xapi.effects)
      ensures xapi.strict && !old(xapi.vm.vifs[r].plugged) ==> o.Raised?
      ensures old(xapi.Sound()) ==> xapi.Sound() && (o.Done? <==> xapi.strict ==> old(xapi.vm.vifs[r].plugged))
      ensures o.Raised? ==> o.why in {XapiFailure, DeviceDetached}
    {
      hide WellFormed, Faultless, OnlyCleaned, Vm.UserVifs;
      ghost var before := xapi.vm;
      o := xapi.Unplug(r);
      UnpluggedOnly(before, r);
      if o.Done? {
        o := xapi.Destroy(r);
      }
      Cleaned(before, xapi.vm, r);
    }

    /** The references of the management interfaces, in the order XAPI lists them. */
    method TaggedVifs() returns (o: Outcome<seq<Ref>>)
      modifies xapi`fates
      ensures old(xapi.Sound()) ==> xapi.Sound() && o.Done?
      ensures xapi.vm.vifs == map[] && Begins(old(xapi.fates), 1) ==> o == Done([]) && xapi.fates == old(xapi.fates)[1..]
      ensures o.Raised? ==> o.why == XapiFailure
      ensures o.Done? ==>
                && (forall r :: r in o.value <==> r in xapi.vm.Tagged())
                && forall j, k :: 0 <= j < k < |o.value| ==> o.value[j] != o.value[k]
    {
      var vifs :- xapi.GetVifs();
      o := SelectTagged(vifs);
    }

    method SelectTagged(vifs: seq<Ref>) returns (o: Outcome<seq<Ref>>)
      requires forall r :: r in vifs <==> r in xapi.vm.vifs
      requires forall j, k :: 0 <= j < k < |vifs| ==> vifs[j] != vifs[k]
      modifies xapi`fates
      ensures old(xapi.Sound()) ==> xapi.Sound() && o.Done?
      ensures o.Raised? ==> o.why == XapiFailure
      ensures o.Done? ==>
                && (forall r :: r in o.value <==> r in xapi.vm.Tagged())
                && forall j, k :: 0 <= j < k < |o.value| ==> o.value[j] != o.value[k]
      ensures vifs == [] ==> o == Done([]) && xapi.fates == old(xapi.fates)
    {
      var found: seq<Ref> := [];
      for i := 0 to |vifs|
        invariant old(xapi.Sound()) ==> xapi.Sound()
        invariant forall r :: r in found <==> r in vifs[..i] && xapi.vm.vifs[r].tagged
        invariant forall j, k :: 0 <= j < k < |found| ==> found[j] != found[k]
        invariant vifs == [] ==> found == [] && xapi.fates == old(xapi.fates)
      {
        var tagged :- xapi.IsTagged(vifs[i]);
        if tagged {
          assert vifs[i] !in vifs[..i];
          found := found + [vifs[i]];
        }
      }
      assert vifs[..|vifs|] == vifs;
      return Done(found);
    }

    method CleanupVifs() returns (o: Outcome<()>)
      requires xapi.Valid()
      modifies xapi`fates, xapi`vm, xapi`effects
      ensures xapi.Valid() && OnlyCleaned(old(xapi.vm), xapi.vm)
      ensures o.Done? ==> xapi.vm.Tagged() == {}
      ensures xapi.Jams(old(xapi.Jammed()), old(xapi.effects))
      ensures old(xapi.Jammed()) ==> o.Raised?
      ensures old(xapi.vm.vifs) == map[] && Begins(old(xapi.fates), 1) ==>
                o.Done? && xapi.fates == old(xapi.fates)[1..] && xapi.vm == old(xapi.vm)
      ensures old(xapi.Sound()) ==> xapi.Sound() && (o.Done? <==> !old(xapi.Jammed()))
      ensures o.Raised? ==> o.why in {XapiFailure, DeviceDetached}
    {
      var toDestroy :- TaggedVifs();
      o := DestroyVifs(toDestroy);
    }

    method DestroyVifs(toDestroy: seq<Ref>) returns (o: Outcome<()>)
      requires xapi.Valid()
      requires forall r :: r in xapi.vm.Tagged() <==> r in toDestroy
      requires forall j, k :: 0 <= j < k < |toDestroy| ==> toDestroy[j] != toDestroy[k]
      modifies xapi`fates, xapi`vm, xapi`effects
      ensures xapi.Valid() && OnlyCleaned(old(xapi.vm), xapi.vm)
      ensures o.Done? ==> xapi.vm.Tagged() == {}
      ensures xapi.Jams(old(xapi.Jammed()), old(xapi.effects))
      ensures old(xapi.Jammed()) ==> o.Raised?
      ensures old(xapi.Sound()) ==> xapi.Sound() && (o.Done? <==> !old(xapi.Jammed()))
      ensures toDestroy == [] ==> o.Done? && xapi.vm == old(xapi.vm) && xapi.fates == old(xapi.fates)
      ensures o.Raised? ==> o.why in {XapiFailure, DeviceDetached}
    {
      hide Stranding;
      NothingStranded(xapi.effects, xapi.effects, xapi.effects);
      for i := 0 to |toDestroy|
        invariant xapi.Valid() && OnlyCleaned(old(xapi.vm), xapi.vm)
        invariant forall r :: r in xapi.vm.Tagged() <==> r in toDestroy[i..]
        invariant old(xapi.Jammed()) <==> xapi.Jammed()
        invariant old(xapi.effects) <= xapi.effects && !Stranding(old(xapi.effects), xapi.effects)
        invariant old(xapi.Sound()) ==> xapi.Sound()
        invariant toDestroy == [] ==> xapi.vm == old(xapi.vm) && xapi.fates == old(xapi.fates)
      {
        var r := toDestroy[i];
        OneLess(toDestroy, i);
        ghost var before := xapi.effects;
        o := DestroyVif(r);
        NothingStranded(old(xapi.effects), before, xapi.effects);
        if o.Raised? {
          return;
        }
      }
      assert toDestroy[|toDestroy|..] == [];
      return Done(());
    }

    method Clearup() returns (o: Outcome<()>)
      requires xapi.Valid()
      modifies xapi`fates, xapi`vm, xapi`effects
      ensures xapi.Valid()
      ensures OnlyCleaned(old(xapi.vm), xapi.vm.(config := old(xapi.vm.config)))
      ensures xapi.vm.config == old(xapi.vm.config) || xapi.vm.config == old(xapi.vm.config) - {KvpTag}
      ensures o.Done? ==> xapi.vm.Tagged() == {} && xapi.vm.config == old(xapi.vm.config) - {KvpTag}
      ensures xapi.Jams(old(xapi.Jammed()), old(xapi.effects))
      ensures old(xapi.Jammed()) ==> o.Raised?
      ensures old(xapi.vm.vifs) == map[] && KvpTag !in old(xapi.vm.config) && Begins(old(xapi.fates), 2) ==>
                o.Done? && xapi.fates == old(xapi.fates)[2..] && xapi.vm == old(xapi.vm)
      ensures xapi.vm.config != old(xapi.vm.config) ==> xapi.vm.Tagged() == {}
      ensures old(xapi.Sound()) ==> xapi.Sound() && (o.Done? <==> !old(xapi.Jammed()))
      ensures o.Raised? ==> o.why in {XapiFailure, DeviceDetached}
    {
      var _ :- CleanupVifs();
      var _ :- xapi.Read();
      var oc := xapi.vm.config;
      if KvpTag in oc {
        oc := oc - {KvpTag};
        o := xapi.SetOtherConfig(oc);
        SameTags(xapi.vm, xapi.vm.(config := old(xapi.vm.config)));
      } else {
        assert oc - {KvpTag} == oc;
        o := Done(());
      }
    }

    method GetHostInternalNetwork() returns (o: Outcome<nat>)
      modifies xapi`fates
      ensures old(xapi.Sound()) ==> xapi.Sound() && (o.Done? <==> xapi.HasNetwork())
      ensures o.Done? ==> o.value < |xapi.networks| && xapi.networks[o.value] == Network(true, true)
      ensures xapi.networks != [] && xapi.networks[0] == Network(true, true) && Begins(old(xapi.fates), 2) ==>
                o.Done? && xapi.fates == old(xapi.fates)[2..]
      ensures o.Raised? ==> o.why in {XapiFailure, NoInternalNetwork}
    {
      var _ :- xapi.Read();
      for k := 0 to |xapi.networks|
        invariant old(xapi.Sound()) ==> xapi.Sound()
        invariant forall j :: 0 <= j < k ==> xapi.networks[j] != Network(true, true)
        invariant k == 0 && Begins(old(xapi.fates), 1) ==> xapi.fates == old(xapi.fates)[1..]
      {
        var _ :- xapi.Read();
        if xapi.networks[k] == Network(true, true) {
          return Done(k);
        }
      }
      return Raised(NoInternalNetwork);
    }

    method CreateVif(network: nat) returns (o: Outcome<Ref>)
      requires xapi.Valid()
      modifies xapi`fates, xapi`vm, xapi`nextRef, xapi`peak, xapi`effects
      ensures xapi.Valid()
      ensures || (xapi.vm == old(xapi.vm) && xapi.effects == old(xapi.effects))
              || (Added(old(xapi.vm), old(xapi.nextRef), xapi.vm) && xapi.effects == old(xapi.effects) + [Created] &&
                  !xapi.vm.vifs[old(xapi.nextRef)].plugged)
      ensures old(xapi.peak) == xapi.peak || old(xapi.peak) <= xapi.peak == |xapi.vm.Tagged()|
      ensures |xapi.vm.Tagged()| <= |old(xapi.vm.Tagged())| + 1
      ensures xapi.vm.UserVifs() == old(xapi.vm.UserVifs())
      ensures o.Done? ==>
                && o.value == old(xapi.nextRef) && Added(old(xapi.vm), o.value, xapi.vm)
                && xapi.vm.Tagged() == old(xapi.vm.Tagged()) + {o.value}
                && |xapi.vm.Tagged()| == |old(xapi.vm.Tagged())| + 1
                && xapi.vm.vifs[o.value].device == |old(xapi.vm.vifs)| + 1
                && xapi.vm.vifs[o.value].network == network
      ensures o.Done? ==> old(xapi.vm.Free(|xapi.vm.vifs| + 1))
      ensures old(xapi.Sound()) ==> xapi.Sound() && (o.Done? <==> old(xapi.vm.Free(|xapi.vm.vifs| + 1)))
      ensures old(xapi.vm.vifs) == map[] && Begins(old(xapi.fates), 2) ==> o.Done? && xapi.fates == old(xapi.fates)[2..]
      ensures o.Raised? ==> o.why in {XapiFailure, DeviceInUse}
    {
      var vifs :- xapi.GetVifs();
      var device := |vifs| + 1;
      o := xapi.CreateTagged(device, network);
      if xapi.vm != old(xapi.vm) {
        AddedMeans(old(xapi.vm), old(xapi.nextRef), xapi.vm);
      }
    }

    /** The management interface, if there is one; having several is an error. */
    method GetManagementVif() returns (o: Outcome<Option<Ref>>)
      modifies xapi`fates
      ensures o.Done? ==> xapi.vm.Tagged() == if o.value.Some? then {o.value.value} else {}
      ensures o.Raised? ==> o.why in {XapiFailure, ManyManagementVifs}
      ensures o == Raised(ManyManagementVifs) ==> |xapi.vm.Tagged()| > 1
      ensures old(xapi.Sound()) ==> xapi.Sound() && (o.Raised? <==> |xapi.vm.Tagged()| > 1)
    {
      var res :- TaggedVifs();
      if res == [] {
        assert xapi.vm.Tagged() == {};
        return Done(None);
      }
      if |res| > 1 {
        assert res[0] in res && res[1] in res;
        FewerTagged({res[0], res[1]}, xapi.vm.Tagged());
        return Raised(ManyManagementVifs);
      }
      assert xapi.vm.Tagged() == {res[0]};
      return Done(Some(res[0]));
    }

    /** What the VM will find in xenstore when it boots again. */
    method SetupPersistentXenstoreData(mac: nat) returns (o: Outcome<()>)
      requires xapi.Valid()
      modifies xapi`fates, xapi`vm
      ensures xapi.Valid() && xapi.vm == old(xapi.vm).(store := xapi.vm.store)
      ensures o.Done? ==>
                && NetworkDevice in xapi.vm.store && xapi.vm.store[NetworkDevice] == Mac(mac)
                && Restarts(old(xapi.vm.store), xapi.vm.store)
      ensures xapi.vm.store - {NetworkDevice, ReattachDaemon} == old(xapi.vm.store) - {NetworkDevice, ReattachDaemon}
      ensures old(xapi.Sound()) ==> xapi.Sound() && o.Done?
      ensures o.Raised? ==> o.why in {XapiFailure, LocalFailure}
    {
      var _ :- xapi.Read();
      var data := xapi.vm.store;
      if NetworkDevice in data && ReattachDaemon in data && data[NetworkDevice] == Mac(mac) {
        return Done(());
      }
      var updated := data[NetworkDevice := Mac(mac)][ReattachDaemon := One];
      var _ :- xapi.SetXenstoreData(updated);
      var _ :- EnableXenstoreRw();
      var _ :- xapi.Local();
      return Done(());
    }

    method EnableXenstoreRw() returns (o: Outcome<()>)
      modifies xapi`fates
      ensures old(xapi.Sound()) ==> xapi.Sound() && o.Done?
      ensures o.Raised? ==> o.why == LocalFailure
    {
      var _ :- xapi.Local();
      var _ :- xapi.Local();
      var _ :- xapi.Local();
      return Done(());
    }

    method SetupNetworkInterface() returns (o: Outcome<Ref>)
      requires xapi.Valid()
      modifies xapi`fates, xapi`vm, xapi`nextRef, xapi`peak, xapi`effects
      ensures xapi.Valid() && xapi.vm.config == old(xapi.vm.config)
      ensures xapi.vm.UserVifs() == old(xapi.vm.UserVifs())
      ensures old(xapi.vm.Tagged()) == {} ==>
                && xapi.peak <= (if old(xapi.peak) == 0 then 1 else old(xapi.peak))
                && |xapi.vm.Tagged()| <= 1 && Expected(o)
      ensures o.Done? ==> old(xapi.vm.Tagged()) == {} && xapi.vm.Connected(o.value) && xapi.Internal(o.value)
      ensures o.Done? ==> old(xapi.CanSetUp())
      ensures o.Done? ==> Restarts(old(xapi.vm.store), xapi.vm.store)
      ensures old(xapi.Sound()) ==>
                xapi.Sound() && (o.Done? <==> old(xapi.vm.Tagged()) == {} && old(xapi.CanSetUp()))
      ensures xapi.Jams(old(xapi.Jammed()), old(xapi.effects))
      ensures old(xapi.vm.vifs) == map[] && xapi.networks != [] && xapi.networks[0] == Network(true, true) &&
              RefusedAt(old(xapi.fates), 4) ==>
                o.Raised? && xapi.effects == old(xapi.effects) + [Created]
    {
      hide WellFormed, Faultless, Vm.UserVifs, Vm.Detached, Vm.Tagged, Vm.Connected, HasRoom, Stranding, Added;
      NothingStranded(xapi.effects, xapi.effects, xapi.effects);
      if xapi.vm.Tagged() == {} {
        AllUsers(xapi.vm);
      }
      var network :- GetHostInternalNetwork();
      var vif :- AddInterface(network);
      o := FindAndPublish(vif);
    }

    /** The second half of it: the interface just plugged in is looked up, and its address recorded. */
    method FindAndPublish(ghost vif: Ref) returns (o: Outcome<Ref>)
      requires xapi.Valid() && vif in xapi.vm.Tagged() && xapi.vm.vifs[vif].plugged
      modifies xapi`fates, xapi`vm
      ensures xapi.Valid() && xapi.vm == old(xapi.vm).(store := xapi.vm.store)
      ensures xapi.vm.Tagged() == old(xapi.vm.Tagged()) && xapi.vm.UserVifs() == old(xapi.vm.UserVifs())
      ensures xapi.vm.Detached() == old(xapi.vm.Detached())
      ensures o.Done? ==> o.value == vif && xapi.vm.Connected(vif)
      ensures o.Raised? ==> o.why in {XapiFailure, LocalFailure, ManyManagementVifs}
      ensures o == Raised(ManyManagementVifs) ==> |xapi.vm.Tagged()| > 1
      ensures o.Done? ==> Restarts(old(xapi.vm.store), xapi.vm.store)
      ensures old(xapi.Sound()) ==> xapi.Sound() && (o.Done? <==> |xapi.vm.Tagged()| <= 1)
    {
      var management :- GetManagementVif();
      if management.None? {
        return Raised(NoManagementVif);
      }
      var r := management.value;
      assert vif in {r};
      var published := PublishMac(r);
      SameTags(old(xapi.vm), xapi.vm);
      o := if published.Done? then Done(r) else Raised(published.why);
    }

    /** A new management interface, plugged in. Afterwards there is none, or one that is not
        plugged in, or one that is. It jams a VM that was not jammed exactly when the interface is
        left unplugged and that matters to the server. */
    method AddInterface(network: nat) returns (o: Outcome<Ref>)
      requires xapi.Valid()
      modifies xapi`fates, xapi`vm, xapi`nextRef, xapi`peak, xapi`effects
      ensures xapi.Valid() && xapi.vm == old(xapi.vm).(vifs := xapi.vm.vifs)
      ensures || (xapi.vm == old(xapi.vm) && xapi.effects == old(xapi.effects))
              || (Added(old(xapi.vm), old(xapi.nextRef), xapi.vm) &&
                  xapi.effects == old(xapi.effects) +
                    if xapi.vm.vifs[old(xapi.nextRef)].plugged then [Created, Plugged] else [Created])
      ensures xapi.Jams(old(xapi.Jammed()), old(xapi.effects))
      ensures old(xapi.peak) == xapi.peak || old(xapi.peak) <= xapi.peak == |xapi.vm.Tagged()|
      ensures |xapi.vm.Tagged()| <= |old(xapi.vm.Tagged())| + 1
      ensures xapi.vm.UserVifs() == old(xapi.vm.UserVifs())
      ensures o.Done? ==>
                && xapi.vm.Tagged() == old(xapi.vm.Tagged()) + {o.value}
                && |xapi.vm.Tagged()| == |old(xapi.vm.Tagged())| + 1
                && o.value in xapi.vm.vifs && xapi.vm.vifs[o.value].plugged
                && xapi.vm.vifs[o.value].network == network
      ensures o.Done? ==> old(xapi.vm.Free(|xapi.vm.vifs| + 1))
      ensures old(xapi.Sound()) ==> xapi.Sound() && (o.Done? <==> old(xapi.vm.Free(|xapi.vm.vifs| + 1)))
      ensures old(xapi.vm.vifs) == map[] && RefusedAt(old(xapi.fates), 2) ==>
                o.Raised? && xapi.effects == old(xapi.effects) + [Created]
      ensures o.Raised? ==> o.why in {XapiFailure, DeviceInUse}
    {
      hide Vm.UserVifs, Vm.Tagged, Vm.Detached;
      o := CreateVif(network);
      if Added(old(xapi.vm), old(xapi.nextRef), xapi.vm) {
        AddedJams(old(xapi.vm), old(xapi.nextRef), xapi.vm);
      }
      if o.Done? {
        var plugged := xapi.Plug(o.value);
        if plugged.Raised? {
          return Raised(plugged.why);
        }
      }
    }

    /** Recording the interface's address, for the next boot and for now. */
    method PublishMac(r: Ref) returns (o: Outcome<()>)
      requires xapi.Valid() && r in xapi.vm.vifs
      modifies xapi`fates, xapi`vm
      ensures xapi.Valid() && xapi.vm == old(xapi.vm).(store := xapi.vm.store)
      ensures o.Done? ==>
                && NetworkDevice in xapi.vm.store && xapi.vm.store[NetworkDevice] == Mac(xapi.vm.vifs[r].mac)
                && Restarts(old(xapi.vm.store), xapi.vm.store)
      ensures old(xapi.Sound()) ==> xapi.Sound() && o.Done?
      ensures o.Raised? ==> o.why in {XapiFailure, LocalFailure}
    {
      var _ :- xapi.Read();
      var mac := xapi.vm.vifs[r].mac;
      var _ :- SetupPersistentXenstoreData(mac);
      var _ :- xapi.Local();
      return Done(());
    }

    method Setup() returns (o: Outcome<()>)
      requires xapi.Valid()
      modifies xapi`fates, xapi`vm, xapi`nextRef, xapi`peak, xapi`effects
      ensures xapi.Valid() && xapi.vm.UserVifs() == old(xapi.vm.UserVifs())
      ensures xapi.vm.config == old(xapi.vm.config) || xapi.vm.config == old(xapi.vm.config)[KvpTag := TRUE]
      ensures old(xapi.vm.Tagged()) == {} ==>
                && xapi.peak <= (if old(xapi.peak) == 0 then 1 else old(xapi.peak))
                && |xapi.vm.Tagged()| <= 1 && Expected(o)
      ensures o.Done? ==> old(xapi.vm.Tagged()) == {} && xapi.vm.Ready()
      ensures o.Done? && KvpTag !in old(xapi.vm.config) ==> xapi.vm.config == old(xapi.vm.config)[KvpTag := TRUE]
      ensures o.Done? ==> old(xapi.CanSetUp())
      ensures o.Done? ==> Restarts(old(xapi.vm.store), xapi.vm.store)
      ensures xapi.vm.config != old(xapi.vm.config) ==> xapi.vm.Ready()
      ensures old(xapi.Sound()) ==>
                xapi.Sound() && (o.Done? <==> old(xapi.vm.Tagged()) == {} && old(xapi.CanSetUp()))
      ensures xapi.Jams(old(xapi.Jammed()), old(xapi.effects))
      ensures old(xapi.vm.vifs) == map[] && xapi.networks != [] && xapi.networks[0] == Network(true, true) &&
              RefusedAt(old(xapi.fates), 4) ==>
                o.Raised? && xapi.effects == old(xapi.effects) + [Created]
    {
      var r :- SetupNetworkInterface();
      var _ :- xapi.Local();  // restarting the service in the guest
      var _ :- xapi.Local();  // waiting for it, in vain or not
      var _ :- GetCredentials();
      o := xapi.AddToOtherConfig(KvpTag, TRUE);
      SameTags(xapi.vm, xapi.vm.(config := old(xapi.vm.config)));
      if o == Raised(MapDuplicateKey) {
        o := Done(());
      }
      assert xapi.vm.Connected(r);
    }

    /** Four reads of xenstore; only a missing daemon address raises. */
    method GetCredentials() returns (o: Outcome<()>)
      modifies xapi`fates
      ensures old(xapi.Sound()) ==> xapi.Sound() && o.Done?
      ensures o.Raised? ==> o.why == LocalFailure
    {
      var _ :- xapi.Local();
      var _ :- xapi.Local();
      var _ :- xapi.Local();
      var address :- xapi.Local();
      return if address then Done(()) else Raised(LocalFailure);
    }

    method SETUP() returns (o: Outcome<()>)
      requires xapi.Valid()
      modifies xapi`fates, xapi`vm, xapi`nextRef, xapi`peak, xapi`effects
      ensures xapi.Valid() && Keeps(old(xapi.vm), xapi.vm, old(xapi.peak), xapi.peak) && Expected(o)
      ensures MigrationTag in xapi.vm.config <==> MigrationTag in old(xapi.vm.config)
      ensures o.Done? ==> xapi.vm.Ready() && xapi.vm.config == old(xapi.vm.config)[KvpTag := TRUE]
      ensures xapi.Jams(old(xapi.Jammed()), old(xapi.effects))
      ensures old(xapi.Jammed()) ==> o.Raised?
      ensures o.Done? ==> old(xapi.CanSetUp())
      ensures o.Done? ==> KvpTag in xapi.vm.config && xapi.vm.config[KvpTag] == "true"
      ensures o.Done? ==> Restarts(old(xapi.vm.store), xapi.vm.store)
      ensures old(xapi.Sound()) ==> xapi.Sound() && (o.Done? <==> !old(xapi.Jammed()) && old(xapi.CanSetUp()))
      ensures old(xapi.vm.vifs) == map[] && KvpTag !in old(xapi.vm.config) &&
              xapi.networks != [] && xapi.networks[0] == Network(true, true) && RefusedAt(old(xapi.fates), 6) ==>
                o.Raised? && Stranding(old(xapi.effects), xapi.effects)
    {
      o := Clearup();
      if o.Done? {
        o := Setup();
      }
    }

    method PrepareMigration() returns (o: Outcome<()>)
      requires xapi.Valid()
      modifies xapi`fates, xapi`vm, xapi`effects
      ensures xapi.Valid() && Keeps(old(xapi.vm), xapi.vm, old(xapi.peak), xapi.peak) && Expected(o)
      ensures o.Done? ==>
                && KvpTag in old(xapi.vm.config) && MigrationTag !in old(xapi.vm.config)
                && xapi.vm.Tagged() == {}
                && xapi.vm.config == (old(xapi.vm.config) - {KvpTag})[MigrationTag := TRUE]
      ensures o.Done? ==> MigrationTag in xapi.vm.config && xapi.vm.config[MigrationTag] == "true"
      ensures KvpTag !in old(xapi.vm.config) ==> o.Raised? && xapi.vm == old(xapi.vm)
      ensures xapi.Jams(old(xapi.Jammed()), old(xapi.effects))
      ensures old(xapi.Jammed()) ==> o.Raised?
      ensures MigrationTag in xapi.vm.config && MigrationTag !in old(xapi.vm.config) ==>
                xapi.vm.Tagged() == {} && KvpTag !in xapi.vm.config
      ensures old(xapi.Sound()) ==>
                && xapi.Sound()
                && (o.Done? <==> KvpTag in old(xapi.vm.config) && MigrationTag !in old(xapi.vm.config) && !old(xapi.Jammed()))
      ensures old(xapi.Sound()) && !old(xapi.Jammed()) && KvpTag in old(xapi.vm.config) ==>
                && xapi.vm.Tagged() == {} && KvpTag !in xapi.vm.config && MigrationTag in xapi.vm.config
                && (o.Raised? ==> o.why == MapDuplicateKey)
    {
      var _ :- xapi.Read();
      if KvpTag !in xapi.vm.config {
        return Raised(NotInstalled);
      }
      var _ :- Clearup();
      ghost var cleared := xapi.vm;
      o := xapi.AddToOtherConfig(MigrationTag, TRUE);
      SameTags(cleared, xapi.vm);
    }

    method FinishMigration() returns (o: Outcome<()>)
      requires xapi.Valid()
      modifies xapi`fates, xapi`vm, xapi`nextRef, xapi`peak, xapi`effects
      ensures xapi.Valid() && Keeps(old(xapi.vm), xapi.vm, old(xapi.peak), xapi.peak) && Expected(o)
      ensures MigrationTag !in old(xapi.vm.config) ==> o.Raised? && xapi.vm == old(xapi.vm)
      ensures o.Done? ==>
                && MigrationTag in old(xapi.vm.config) && xapi.vm.Ready()
                && xapi.vm.config == (old(xapi.vm.config) - {MigrationTag})[KvpTag := TRUE]
      ensures xapi.Jams(old(xapi.Jammed()), old(xapi.effects))
      ensures old(xapi.Jammed()) ==> o.Raised?
      ensures o.Done? ==> old(xapi.CanSetUp())
      ensures o.Done? ==> Restarts(old(xapi.vm.store), xapi.vm.store)
      ensures xapi.vm == old(xapi.vm) || MigrationTag !in xapi.vm.config
      ensures old(xapi.Sound()) ==>
                && xapi.Sound()
                && (o.Done? <==> MigrationTag in old(xapi.vm.config) && !old(xapi.Jammed()) && old(xapi.CanSetUp()))
    {
      var _ :- xapi.Read();
      var oc := xapi.vm.config;
      if MigrationTag !in oc {
        return Raised(NotMigrated);
      }
      oc := oc - {MigrationTag};
      o := xapi.SetOtherConfig(oc);
      SameTags(xapi.vm, old(xapi.vm));
      if o.Done? {
        o := SETUP();
      }
    }

    method Execute(cmd: Command) returns (o: Outcome<()>)
      requires xapi.Valid()
      modifies xapi`fates, xapi`vm, xapi`nextRef, xapi`peak, xapi`effects
      ensures xapi.Valid() && Keeps(old(xapi.vm), xapi.vm, old(xapi.peak), xapi.peak) && Expected(o)
      ensures o.Done? ==> Served(cmd, old(xapi.vm), xapi.vm)
      ensures MigrationTag in xapi.vm.config ==> MigrationTag in old(xapi.vm.config) || cmd == PREPARE
      ensures xapi.Jams(old(xapi.Jammed()), old(xapi.effects))
      ensures xapi.Jammed() ==> o.Raised?
      ensures old(xapi.Sound()) && old(xapi.CanSetUp()) && !old(xapi.Jammed()) ==>
                && xapi.Sound() && xapi.CanSetUp() && !xapi.Jammed()
                && (o.Done? <==> Accepts(TagsOf(old(xapi.vm)), cmd))
                && TagsOf(xapi.vm) == Next(TagsOf(old(xapi.vm)), cmd)
    {
      match cmd
      case SETUP => o := SETUP();
      case PREPARE => o := PrepareMigration();
      case FINISH => o := FinishMigration();
    }

    /** Any run of commands, under any pattern of failures. */
    method Serve(cmds: seq<Command>) returns (outs: seq<Outcome<()>>)
      requires xapi.Valid()
      modifies xapi`fates, xapi`vm, xapi`nextRef, xapi`peak, xapi`effects
      ensures xapi.Valid() && Keeps(old(xapi.vm), xapi.vm, old(xapi.peak), xapi.peak)
      ensures |outs| == |cmds| && AllExpected(outs)
      ensures FinishesExplained(MigrationTag in old(xapi.vm.config), cmds, outs)
      ensures cmds != [] && outs[|cmds| - 1].Done? ==> Achieved(cmds[|cmds| - 1], xapi.vm)
      ensures old(xapi.Jammed()) ==> xapi.Jammed() && AllRaised(outs)
      ensures old(xapi.Sound()) && old(xapi.CanSetUp()) && !old(xapi.Jammed()) ==>
                Foretold(TagsOf(old(xapi.vm)), cmds, outs, TagsOf(xapi.vm))
    {
      hide WellFormed, Faultless, Stranding, History, HasRoom, Accepts, Next, TagsOf, Keeps, Served, Achieved, Expected;
      outs := [];
      ghost var tagged := MigrationTag in xapi.vm.config;
      ghost var smooth := xapi.Sound() && xapi.CanSetUp() && !xapi.Jammed();
      ghost var tags := TagsOf(xapi.vm);
      RunBegins(tagged, cmds, smooth, tags);
      KeepsAll(xapi.vm, xapi.vm, xapi.vm, xapi.peak, xapi.peak, xapi.peak);
      while |outs| < |cmds|
        invariant |outs| <= |cmds|
        invariant xapi.Valid() && Keeps(old(xapi.vm), xapi.vm, old(xapi.peak), xapi.peak)
        invariant History(tagged, cmds, outs, MigrationTag in xapi.vm.config, smooth, tags, TagsOf(xapi.vm))
        invariant outs != [] && outs[|outs| - 1].Done? ==> Achieved(cmds[|outs| - 1], xapi.vm)
        invariant old(xapi.Jammed()) ==> xapi.Jammed() && AllRaised(outs)
        invariant smooth ==> xapi.Sound() && xapi.CanSetUp() && !xapi.Jammed()
      {
        ghost var before, peak := xapi.vm, xapi.peak;
        var o := Execute(cmds[|outs|]);
        KeepsAll(old(xapi.vm), before, xapi.vm, old(xapi.peak), peak, xapi.peak);
        ServedMeansAchieved(cmds[|outs|], before, xapi.vm);
        HistoryGrows(tagged, cmds, outs, o, before, xapi.vm, smooth, tags);
        outs := outs + [o];
      }
      HistoryMeans(tagged, cmds, outs, MigrationTag in xapi.vm.config, smooth, tags, TagsOf(xapi.vm));
    }
  }

  /** One plug is refused, on a VM without interfaces, and no later command ever succeeds, although
      no other call fails of itself. */
  method JammedByOnePlug(cmds: seq<Command>) returns (first: Outcome<()>, outs: seq<Outcome<()>>)
    ensures first.Raised?
    ensures |outs| == |cmds| && AllRaised(outs)
  {
    var fates := [Works, Works, Works, Works, Works, Works, Refused];
    var xapi := new Xapi(Vm(map[], map[], map[]), 0, fates, [Network(true, true)], true);
    var client := new KvpClient(xapi);
    assert xapi.vm.Tagged() == {};
    first := client.SETUP();
    outs := client.Serve(cmds);
  }

  /** Numbers up to the count of the user's interfaces leave the next one free. */
  lemma NumbersInOrderLeaveRoom(vm: Vm)
    requires forall r :: r in vm.UserVifs() ==> vm.UserVifs()[r].device <= |vm.UserVifs()|
    ensures vm.Room()
  {
  }

  /** Two interfaces numbered 0 and 3 do not: the daemon would take number 3. */
  lemma GapTakesRoom(a: Vif, b: Vif)
    requires !a.tagged && !b.tagged && a.device == 0 && b.device == 3
    ensures !Vm(map[0 := a, 1 := b], map[], map[]).Room()
  {
    var vm := Vm(map[0 := a, 1 := b], map[], map[]);
    assert vm.UserVifs() == map[0 := a, 1 := b];
    assert |vm.UserVifs()| == 2;
    assert vm.UserVifs()[1].device == 3;
  }

  predicate AllExpected(outs: seq<Outcome<()>>) {
    forall k :: 0 <= k < |outs| ==> Expected(outs[k])
  }

  predicate AllRaised(outs: seq<Outcome<()>>) {
    forall k :: 0 <= k < |outs| ==> outs[k].Raised?
  }

  /** Every FINISH that succeeded was entitled to. */
  ghost predicate FinishesExplained(taggedAtFirst: bool, cmds: seq<Command>, outs: seq<Outcome<()>>)
    requires |outs| <= |cmds|
  {
    forall k :: 0 <= k < |outs| && cmds[k] == FINISH && outs[k].Done? ==> MayFinish(taggedAtFirst, cmds, outs, k)
  }

  /** What is known of a run so far: of its outcomes, and of whether the migration tag is there
      now; and, of a run without faults, that its outcomes were to be foretold. */
  ghost predicate History(taggedAtFirst: bool, cmds: seq<Command>, outs: seq<Outcome<()>>, has: bool,
                          smooth: bool, tags: Tags, now: Tags)
    requires |outs| <= |cmds|
  {
    && AllExpected(outs)
    && FinishesExplained(taggedAtFirst, cmds, outs)
    && (has ==> MayFinish(taggedAtFirst, cmds, outs, |outs|))
    && (smooth ==> Foretold(tags, cmds[..|outs|], outs, now))
  }

  lemma RunBegins(taggedAtFirst: bool, cmds: seq<Command>, smooth: bool, tags: Tags)
    ensures History(taggedAtFirst, cmds, [], taggedAtFirst, smooth, tags, tags)
  {
    assert Arms(taggedAtFirst, cmds, -1) == taggedAtFirst && Unfinished(cmds, [], -1, 0);
  }

  lemma HistoryGrows(taggedAtFirst: bool, cmds: seq<Command>, outs: seq<Outcome<()>>, o: Outcome<()>,
                     before: Vm, after: Vm, smooth: bool, tags: Tags)
    requires |outs| < |cmds|
    requires History(taggedAtFirst, cmds, outs, MigrationTag in before.config, smooth, tags, TagsOf(before))
    requires Expected(o) && (o.Done? ==> Served(cmds[|outs|], before, after))
    requires MigrationTag in after.config ==> MigrationTag in before.config || cmds[|outs|] == PREPARE
    requires smooth ==>
               && (o.Done? <==> Accepts(TagsOf(before), cmds[|outs|]))
               && TagsOf(after) == Next(TagsOf(before), cmds[|outs|])
    ensures History(taggedAtFirst, cmds, outs + [o], MigrationTag in after.config, smooth, tags, TagsOf(after))
  {
    ServedMeansAchieved(cmds[|outs|], before, after);
    RunGrows(taggedAtFirst, cmds, outs, o, MigrationTag in before.config, MigrationTag in after.config);
    if smooth {
      ForetoldGrows(tags, cmds, outs, o, TagsOf(before), TagsOf(after));
    }
    hide FinishesExplained, MayFinish, Foretold, Expected, Served, TagsOf, Accepts, Next;
  }

  lemma HistoryMeans(taggedAtFirst: bool, cmds: seq<Command>, outs: seq<Outcome<()>>, has: bool,
                     smooth: bool, tags: Tags, now: Tags)
    requires |outs| == |cmds| && History(taggedAtFirst, cmds, outs, has, smooth, tags, now)
    ensures AllExpected(outs) && FinishesExplained(taggedAtFirst, cmds, outs)
    ensures smooth ==> Foretold(tags, cmds, outs, now)
  {
    assert cmds[..|cmds|] == cmds;
  }

  lemma ServedMeansAchieved(cmd: Command, before: Vm, after: Vm)
    ensures Served(cmd, before, after) ==> Achieved(cmd, after)
    ensures cmd == FINISH && Served(cmd, before, after) ==> MigrationTag in before.config && MigrationTag !in after.config
  {
  }

  lemma RunGrows(taggedAtFirst: bool, cmds: seq<Command>, outs: seq<Outcome<()>>, o: Outcome<()>, had: bool, has: bool)
    requires |outs| < |cmds|
    requires FinishesExplained(taggedAtFirst, cmds, outs)
    requires had ==> MayFinish(taggedAtFirst, cmds, outs, |outs|)
    requires has ==> had || cmds[|outs|] == PREPARE
    requires cmds[|outs|] == FINISH && o.Done? ==> had && !has
    ensures FinishesExplained(taggedAtFirst, cmds, outs + [o])
    ensures has ==> MayFinish(taggedAtFirst, cmds, outs + [o], |outs| + 1)
  {
    MayFinishGrows(taggedAtFirst, cmds, outs, o);
  }

  datatype Command = SETUP | PREPARE | FINISH

  /** What a command that succeeded has achieved. */
  ghost predicate Served(cmd: Command, before: Vm, after: Vm) {
    match cmd
    case SETUP => after.Ready() && after.config == before.config[KvpTag := TRUE]
    case PREPARE =>
      && KvpTag in before.config && MigrationTag !in before.config && after.Tagged() == {}
      && after.config == (before.config - {KvpTag})[MigrationTag := TRUE]
    case FINISH =>
      && MigrationTag in before.config && after.Ready()
      && after.config == (before.config - {MigrationTag})[KvpTag := TRUE]
  }

  /** The part of it that can be seen afterwards. */
  ghost predicate Achieved(cmd: Command, after: Vm) {
    match cmd
    case SETUP => after.Ready()
    case PREPARE => after.Tagged() == {} && KvpTag !in after.config && MigrationTag in after.config
    case FINISH => after.Ready() && MigrationTag !in after.config
  }

  /** Since some PREPARE, or since the start if the migration tag was there, no FINISH succeeded
      before number `n`. */
  ghost predicate MayFinish(taggedAtFirst: bool, cmds: seq<Command>, outs: seq<Outcome<()>>, n: nat)
    requires n <= |cmds| && n <= |outs|
  {
    exists i :: -1 <= i < n && Arms(taggedAtFirst, cmds, i) && Unfinished(cmds, outs, i, n)
  }

  predicate Arms(taggedAtFirst: bool, cmds: seq<Command>, i: int)
    requires -1 <= i < |cmds|
  {
    if i == -1 then taggedAtFirst else cmds[i] == PREPARE
  }

  predicate Unfinished(cmds: seq<Command>, outs: seq<Outcome<()>>, i: int, n: nat)
    requires n <= |cmds| && n <= |outs|
  {
    forall k :: 0 <= k < n && i < k && cmds[k] == FINISH ==> outs[k].Raised?
  }

  lemma MayFinishGrows(taggedAtFirst: bool, cmds: seq<Command>, outs: seq<Outcome<()>>, o: Outcome<()>)
    requires |outs| < |cmds|
    ensures forall n: nat :: n <= |outs| && MayFinish(taggedAtFirst, cmds, outs, n) ==>
              MayFinish(taggedAtFirst, cmds, outs + [o], n)
    ensures MayFinish(taggedAtFirst, cmds, outs, |outs|) && (cmds[|outs|] == FINISH ==> o.Raised?) ==>
              MayFinish(taggedAtFirst, cmds, outs + [o], |outs| + 1)
    ensures cmds[|outs|] == PREPARE ==> MayFinish(taggedAtFirst, cmds, outs + [o], |outs| + 1)
  {
    var longer := outs + [o];
    forall n: nat | n <= |outs| && MayFinish(taggedAtFirst, cmds, outs, n)
      ensures MayFinish(taggedAtFirst, cmds, longer, n)
    {
      var i :| -1 <= i < n && Arms(taggedAtFirst, cmds, i) && Unfinished(cmds, outs, i, n);
      assert Unfinished(cmds, longer, i, n);
    }
    if MayFinish(taggedAtFirst, cmds, outs, |outs|) && (cmds[|outs|] == FINISH ==> o.Raised?) {
      var i :| -1 <= i < |outs| && Arms(taggedAtFirst, cmds, i) && Unfinished(cmds, outs, i, |outs|);
      assert Unfinished(cmds, longer, i, |outs| + 1);
    }
    if cmds[|outs|] == PREPARE {
      assert Arms(taggedAtFirst, cmds, |outs|) && Unfinished(cmds, longer, |outs|, |outs| + 1);
    }
  }

  // --- the life cycle without faults -----------------------------------------------------------

  /** Which of the daemon's two configuration keys a VM carries. */
  datatype Tags = Tags(kvp: bool, migration: bool)

  function TagsOf(vm: Vm): Tags {
    Tags(KvpTag in vm.config, MigrationTag in vm.config)
  }

  predicate Accepts(tags: Tags, cmd: Command) {
    match cmd
    case SETUP => true
    case PREPARE => tags.kvp && !tags.migration
    case FINISH => tags.migration
  }

  function Next(tags: Tags, cmd: Command): Tags {
    match cmd
    case SETUP => tags.(kvp := true)
    case PREPARE => if tags.kvp then Tags(false, true) else tags
    case FINISH => if tags.migration then Tags(true, false) else tags
  }

  function TagsAfter(tags: Tags, cmds: seq<Command>): Tags {
    if cmds == [] then tags else Next(TagsAfter(tags, cmds[..|cmds| - 1]), cmds[|cmds| - 1])
  }

  /** The outcomes are those the two keys foretell, and `now` is what becomes of them. */
  ghost predicate Foretold(tags: Tags, cmds: seq<Command>, outs: seq<Outcome<()>>, now: Tags) {
    && |outs| == |cmds| && now == TagsAfter(tags, cmds)
    && forall k :: 0 <= k < |cmds| ==> (outs[k].Done? <==> Accepts(TagsAfter(tags, cmds[..k]), cmds[k]))
  }

  lemma ForetoldGrows(tags: Tags, cmds: seq<Command>, outs: seq<Outcome<()>>, o: Outcome<()>, before: Tags, now: Tags)
    requires |outs| < |cmds| && Foretold(tags, cmds[..|outs|], outs, before)
    requires o.Done? <==> Accepts(before, cmds[|outs|])
    requires now == Next(before, cmds[|outs|])
    ensures Foretold(tags, cmds[..|outs| + 1], outs + [o], now)
  {
    var n := |outs|;
    var longer := cmds[..n + 1];
    assert longer[..n] == cmds[..n];
    forall k | 0 <= k < n ensures longer[..k] == cmds[..n][..k] && longer[k] == cmds[..n][k] {}
  }

  /** Command number `i` was accepted, from a VM with neither key at first. */
  predicate Accepted(cmds: seq<Command>, i: nat)
    requires i < |cmds|
  {
    Accepts(TagsAfter(Tags(false, false), cmds[..i]), cmds[i])
  }

  predicate Prepared(cmds: seq<Command>, i: nat)
    requires i < |cmds|
  {
    cmds[i] == PREPARE && Accepted(cmds, i) && FINISH !in cmds[i + 1..]
  }

  predicate Installed(cmds: seq<Command>, i: nat)
    requires i < |cmds|
  {
    cmds[i] != PREPARE && Accepted(cmds, i) && PREPARE !in cmds[i + 1..]
  }

  lemma EarlierSame(cmds: seq<Command>, i: nat)
    requires i < |cmds| - 1
    ensures var shorter, last := cmds[..|cmds| - 1], cmds[|cmds| - 1];
            && (Prepared(cmds, i) <==> Prepared(shorter, i) && last != FINISH)
            && (Installed(cmds, i) <==> Installed(shorter, i) && last != PREPARE)
  {
    var n := |cmds| - 1;
    assert cmds[..n][..i] == cmds[..i];
    assert cmds[i + 1..] == cmds[..n][i + 1..] + [cmds[n]];
  }

  /** What the two keys say about the commands so far: a migration is pending when an accepted
      PREPARE has not been followed by a FINISH; the daemon is installed when an accepted SETUP or
      FINISH has not been followed by a PREPARE, accepted or not. */
  lemma {:induction false} TagsMean(cmds: seq<Command>)
    ensures TagsAfter(Tags(false, false), cmds).migration <==> exists i: nat :: i < |cmds| && Prepared(cmds, i)
    ensures TagsAfter(Tags(false, false), cmds).kvp <==> exists i: nat :: i < |cmds| && Installed(cmds, i)
  {
    if cmds != [] {
      var n := |cmds| - 1;
      var shorter := cmds[..n];
      TagsMean(shorter);
      forall i: nat | i < n
        ensures Prepared(cmds, i) <==> Prepared(shorter, i) && cmds[n] != FINISH
        ensures Installed(cmds, i) <==> Installed(shorter, i) && cmds[n] != PREPARE
      {
        EarlierSame(cmds, i);
      }
      assert Prepared(cmds, n) <==> cmds[n] == PREPARE && Accepts(TagsAfter(Tags(false, false), shorter), PREPARE);
      assert Installed(cmds, n) <==> cmds[n] != PREPARE && Accepts(TagsAfter(Tags(false, false), shorter), cmds[n]);
    }
  }

  /** A SETUP while a migration is pending makes the next PREPARE fail, and only after it has torn
      the daemon's things down; FINISH is then still accepted. */
  lemma PrepareAgain(tags: Tags, cmds: seq<Command>)
    requires TagsAfter(tags, cmds).migration
    ensures !Accepts(TagsAfter(tags, cmds + [SETUP]), PREPARE)
    ensures TagsAfter(tags, cmds + [SETUP] + [PREPARE]) == Tags(false, true)
    ensures Accepts(TagsAfter(tags, cmds + [SETUP] + [PREPARE]), FINISH)
  {
    var once := cmds + [SETUP];
    var twice := once + [PREPARE];
    assert once[..|once| - 1] == cmds && twice[..|twice| - 1] == once;
  }

  /** The VM will be told to attach the daemon again: the key is "1", or what it was before. */
  predicate Restarts(was: map<StoreKey, StoreValue>, now: map<StoreKey, StoreValue>) {
    && ReattachDaemon in now
    && (now[ReattachDaemon] == One || (ReattachDaemon in was && now[ReattachDaemon] == was[ReattachDaemon]))
  }

  /** Not one of the errors for a missing or an ambiguous management interface. */
  predicate Expected<T>(o: Outcome<T>) {
    o != Raised(NoManagementVif) && o != Raised(ManyManagementVifs)
  }

  /** What every command keeps, wherever it stops: the user's things, and that there are never two
      management interfaces. */
  ghost predicate Keeps(before: Vm, after: Vm, oldPeak: nat, peak: nat) {
    && before.SameForUser(after)
    && (oldPeak <= 1 ==> peak <= 1)
  }

  lemma KeepsAll(a: Vm, b: Vm, c: Vm, p: nat, q: nat, r: nat)
    ensures Keeps(a, a, p, p)
    ensures Keeps(a, b, p, q) && Keeps(b, c, q, r) ==> Keeps(a, c, p, r)
  {
  }

  /** `after` has one more interface, a management one. */
  ghost predicate Added(before: Vm, r: Ref, after: Vm) {
    && r !in before.vifs && r in after.vifs && after.vifs[r].tagged
    && after == before.(vifs := before.vifs[r := after.vifs[r]])
  }

  lemma AddedMeans(before: Vm, r: Ref, after: Vm)
    requires Added(before, r, after)
    ensures after.Tagged() == before.Tagged() + {r} && r !in before.Tagged()
    ensures after.UserVifs() == before.UserVifs()
  {
  }

  /** A new management interface is in the way until it is plugged in. */
  lemma AddedJams(before: Vm, r: Ref, after: Vm)
    requires Added(before, r, after) && !after.vifs[r].plugged
    ensures after.Detached()
    ensures var c := SetPlugged(after, r, true);
            Added(before, r, c) && c.UserVifs() == before.UserVifs() && c.Detached() == before.Detached()
  {
    var c := SetPlugged(after, r, true);
    AddedMeans(before, r, after);
    assert r in after.Tagged();
    assert c.vifs == before.vifs[r := c.vifs[r]];
    AddedMeans(before, r, c);
    assert forall q :: q in before.Tagged() ==> q != r && c.vifs[q] == before.vifs[q];
  }

  lemma AllUsers(vm: Vm)
    requires vm.Tagged() == {}
    ensures vm.UserVifs() == vm.vifs
    ensures vm.Room() <==> vm.Free(|vm.vifs| + 1)
  {
    assert forall r :: r in vm.vifs ==> r !in vm.Tagged();
    assert vm.UserVifs() == vm.vifs;
  }

  lemma SameTags(a: Vm, b: Vm)
    requires a.vifs == b.vifs
    ensures a.Tagged() == b.Tagged() && a.UserVifs() == b.UserVifs() && a.Detached() == b.Detached()
  {
    assert a.Tagged() == b.Tagged();
  }
}
